/** Sequence vocabulary shared by the models: order-preserving selection, first-occurrence
    de-duplication (the enumeration order of a .NET `HashSet` filled without removals),
    `List.Remove`, substring search (`String.Contains`) and flattening (`SelectMany`). */
module Seqs {

  function Last<T>(s: seq<T>): T
    requires s != []
  {
    s[|s| - 1]
  }

  function DropLast<T>(s: seq<T>): seq<T>
    requires s != []
  {
    s[..|s| - 1]
  }

  /** Taking one more element of `s` appends it. */
  lemma TakeNext<T>(s: seq<T>, i: nat)
    requires i < |s|
    ensures s[..i + 1] == s[..i] + [s[i]]
  {
  }

  predicate NoDuplicates<T(==)>(s: seq<T>) {
    forall i, j :: 0 <= i < j < |s| ==> s[i] != s[j]
  }

  /** `a` is `b` with some elements left out and the rest in their original order. */
  predicate IsSubsequence<T(==)>(a: seq<T>, b: seq<T>)
    decreases |b|
  {
    a == [] ||
    (b != [] &&
      ((Last(a) == Last(b) && IsSubsequence(DropLast(a), DropLast(b))) ||
       IsSubsequence(a, DropLast(b))))
  }

  lemma {:induction false} EmptyIsSubsequence<T>(b: seq<T>)
    ensures IsSubsequence([], b)
  {
  }

  /** Extending the longer sequence keeps a subsequence a subsequence. */
  lemma {:induction false} SubsequenceSkip<T>(a: seq<T>, b: seq<T>, x: T)
    requires IsSubsequence(a, b)
    ensures IsSubsequence(a, b + [x])
  {
    assert DropLast(b + [x]) == b;
  }

  /** Extending both sequences by the same element keeps a subsequence a subsequence. */
  lemma {:induction false} SubsequenceTake<T>(a: seq<T>, b: seq<T>, x: T)
    requires IsSubsequence(a, b)
    ensures IsSubsequence(a + [x], b + [x])
  {
    assert DropLast(b + [x]) == b;
    assert DropLast(a + [x]) == a;
  }

  /** Every element of a subsequence is an element of the sequence it was taken from. */
  lemma {:induction false} SubsequenceElements<T>(a: seq<T>, b: seq<T>)
    requires IsSubsequence(a, b)
    ensures forall x :: x in a ==> x in b
    decreases |b|
  {
    if a != [] {
      if Last(a) == Last(b) && IsSubsequence(DropLast(a), DropLast(b)) {
        SubsequenceElements(DropLast(a), DropLast(b));
        assert a == DropLast(a) + [Last(a)];
        assert b == DropLast(b) + [Last(b)];
      } else {
        SubsequenceElements(a, DropLast(b));
        assert b == DropLast(b) + [Last(b)];
      }
    }
  }

  /** The elements of `s` that satisfy `p`, in order (LINQ `Where`). */
  function Keep<T>(s: seq<T>, p: T -> bool): (r: seq<T>)
    ensures forall x :: x in r ==> x in s && p(x)
    ensures forall x :: x in s && p(x) ==> x in r
    ensures |r| <= |s|
    decreases |s|
  {
    if s == [] then []
    else
      var r := Keep(DropLast(s), p);
      assert s == DropLast(s) + [Last(s)];
      if p(Last(s)) then r + [Last(s)] else r
  }

  lemma {:induction false} KeepIsSubsequence<T>(s: seq<T>, p: T -> bool)
    ensures IsSubsequence(Keep(s, p), s)
    decreases |s|
  {
    if s == [] {
    } else {
      KeepIsSubsequence(DropLast(s), p);
      assert s == DropLast(s) + [Last(s)];
      if p(Last(s)) {
        SubsequenceTake(Keep(DropLast(s), p), DropLast(s), Last(s));
      } else {
        SubsequenceSkip(Keep(DropLast(s), p), DropLast(s), Last(s));
      }
    }
  }

  lemma {:induction false} KeepAppend<T>(s: seq<T>, x: T, p: T -> bool)
    ensures Keep(s + [x], p) == if p(x) then Keep(s, p) + [x] else Keep(s, p)
  {
    assert DropLast(s + [x]) == s;
  }

  /** `s` without repetitions, each element at its first occurrence. */
  function Dedup<T(==)>(s: seq<T>): (r: seq<T>)
    ensures NoDuplicates(r)
    ensures forall x :: x in r ==> x in s
    ensures forall x :: x in s ==> x in r
    ensures |r| <= |s|
    decreases |s|
  {
    if s == [] then []
    else
      var r := Dedup(DropLast(s));
      assert s == DropLast(s) + [Last(s)];
      if Last(s) in r then r else r + [Last(s)]
  }

  lemma {:induction false} DedupAppend<T>(s: seq<T>, x: T)
    ensures Dedup(s + [x]) == if x in s then Dedup(s) else Dedup(s) + [x]
  {
    assert DropLast(s + [x]) == s;
  }

  lemma {:induction false} DedupIsSubsequence<T>(s: seq<T>)
    ensures IsSubsequence(Dedup(s), s)
    decreases |s|
  {
    if s != [] {
      DedupIsSubsequence(DropLast(s));
      assert s == DropLast(s) + [Last(s)];
      if Last(s) in Dedup(DropLast(s)) {
        SubsequenceSkip(Dedup(DropLast(s)), DropLast(s), Last(s));
      } else {
        SubsequenceTake(Dedup(DropLast(s)), DropLast(s), Last(s));
      }
    }
  }

  /** `List.Remove`: the first occurrence of `x` taken out, if there is one. */
  function RemoveFirst<T(==)>(s: seq<T>, x: T): (r: seq<T>)
    ensures multiset(r) == multiset(s) - multiset{x}
    ensures x in s ==> |r| == |s| - 1
    ensures x !in s ==> r == s
  {
    if s == [] then []
    else
      assert s == [s[0]] + s[1..];
      if s[0] == x then s[1..]
      else [s[0]] + RemoveFirst(s[1..], x)
  }

  /** `sub` sits in `s` starting at index `i`. */
  predicate OccursAt<T(==)>(sub: seq<T>, s: seq<T>, i: nat) {
    i + |sub| <= |s| && s[i..i + |sub|] == sub
  }

  /** `String.Contains`: `sub` is a contiguous block of `s`. */
  predicate Occurs<T(==)>(sub: seq<T>, s: seq<T>)
    decreases |s|
  {
    OccursAt(sub, s, 0) || (s != [] && Occurs(sub, s[1..]))
  }

  lemma {:induction false} OccursAtOccurs<T>(sub: seq<T>, s: seq<T>, i: nat)
    requires OccursAt(sub, s, i)
    ensures Occurs(sub, s)
    decreases i
  {
    if i > 0 {
      assert s[1..][i - 1..i - 1 + |sub|] == s[i..i + |sub|];
      OccursAtOccurs(sub, s[1..], i - 1);
    }
  }

  lemma {:induction false} OccursWitness<T>(sub: seq<T>, s: seq<T>) returns (i: nat)
    requires Occurs(sub, s)
    ensures OccursAt(sub, s, i)
    decreases |s|
  {
    if OccursAt(sub, s, 0) {
      i := 0;
    } else {
      var j := OccursWitness(sub, s[1..]);
      assert s[1..][j..j + |sub|] == s[j + 1..j + 1 + |sub|];
      i := j + 1;
    }
  }

  /** Concatenation of a sequence of sequences (LINQ `SelectMany`). */
  function Flatten<T>(ls: seq<seq<T>>): seq<T>
    decreases |ls|
  {
    if ls == [] then [] else ls[0] + Flatten(ls[1..])
  }

  lemma {:induction false} FlattenConcat<T>(a: seq<seq<T>>, b: seq<seq<T>>)
    ensures Flatten(a + b) == Flatten(a) + Flatten(b)
    decreases |a|
  {
    if a != [] {
      assert (a + b)[1..] == a[1..] + b;
      FlattenConcat(a[1..], b);
      assert (a + b)[0] == a[0];
    } else {
      assert a + b == b;
    }
  }

  lemma {:induction false} FlattenLength<T>(ls: seq<seq<T>>, n: nat)
    requires forall i :: 0 <= i < |ls| ==> |ls[i]| == n
    ensures |Flatten(ls)| == |ls| * n
    decreases |ls|
  {
    if ls != [] {
      FlattenLength(ls[1..], n);
    }
  }
}
