/** What the alert clients hand to Discord: one direct message per recipient, in the order
    their grouping dictionary enumerates the recipients. Whether Discord accepts a message is
    an oracle, `fails`. */
module Sending {
  import opened Numerics
  import opened Seqs

  /** One attempted direct message and whether it went through. */
  datatype Send = Send(recipient: ULong, message: string, delivered: bool)

  /** One attempt per key of `order`, in order, each with the message built from that key's
      list. */
  function Attempts<V>(order: seq<ULong>, lists: map<ULong, seq<V>>, message: seq<V> -> string,
                       fails: ULong -> bool): (r: seq<Send>)
    requires forall k :: k in order ==> k in lists
    ensures |r| == |order|
    ensures forall i :: 0 <= i < |r| ==> r[i].recipient == order[i] && r[i].delivered == !fails(order[i])
    decreases |order|
  {
    if order == [] then []
    else
      var key := Last(order);
      Attempts(DropLast(order), lists, message, fails) + [Send(key, message(lists[key]), !fails(key))]
  }

  /** The attempt for the `i`th key carries the message built from that key's list. */
  lemma {:induction false} AttemptsAt<V>(order: seq<ULong>, lists: map<ULong, seq<V>>, message: seq<V> -> string,
                                         fails: ULong -> bool, i: nat)
    requires forall k :: k in order ==> k in lists
    requires i < |order|
    ensures Attempts(order, lists, message, fails)[i] == Send(order[i], message(lists[order[i]]), !fails(order[i]))
    decreases |order|
  {
    if i < |order| - 1 {
      AttemptsAt(DropLast(order), lists, message, fails, i);
    }
  }

  /** The attempts made when the first failure ends the whole operation: a prefix of
      `sends` in which every attempt but the last went through, and which stops short of
      `sends` only at a failed attempt. */
  function UntilFailure(sends: seq<Send>): (r: seq<Send>)
    ensures |r| <= |sends| && r == sends[..|r|]
    ensures forall i :: 0 <= i < |r| - 1 ==> r[i].delivered
    ensures |r| < |sends| ==> r != [] && !r[|r| - 1].delivered
    ensures (forall i :: 0 <= i < |sends| ==> sends[i].delivered) ==> r == sends
    decreases |sends|
  {
    if sends == [] then []
    else if !sends[0].delivered then [sends[0]]
    else
      var rest := UntilFailure(sends[1..]);
      assert forall i :: 0 < i < |sends| ==> sends[1..][i - 1] == sends[i];
      [sends[0]] + rest
  }

  /** When every attempt before `i` went through and attempt `i` failed, the attempts made
      are exactly those up to and including `i`. */
  lemma {:induction false} UntilFailureAt(sends: seq<Send>, i: nat)
    requires i < |sends| && !sends[i].delivered
    requires forall j :: 0 <= j < i ==> sends[j].delivered
    ensures UntilFailure(sends) == sends[..i + 1]
    decreases i
  {
    if i > 0 {
      UntilFailureAt(sends[1..], i - 1);
      assert sends[..i + 1] == [sends[0]] + sends[1..][..i];
    }
  }

  /** Nothing after a failed attempt is attempted. */
  lemma {:induction false} UntilFailureStopsAt(sends: seq<Send>, i: nat)
    requires i < |sends| && !sends[i].delivered
    ensures |UntilFailure(sends)| <= i + 1
    decreases i
  {
    if i > 0 && sends[0].delivered {
      UntilFailureStopsAt(sends[1..], i - 1);
    }
  }

  /** A failed attempt ends the sending, so when every recipient appears once, no recipient
      after the failure gets a message. */
  lemma FailureStops(sends: seq<Send>, i: nat)
    requires i < |sends| && !sends[i].delivered
    requires forall a, b :: 0 <= a < b < |sends| ==> sends[a].recipient != sends[b].recipient
    ensures |UntilFailure(sends)| <= i + 1
    ensures forall j, s :: i < j < |sends| && s in UntilFailure(sends) ==> s.recipient != sends[j].recipient
  {
    var r := UntilFailure(sends);
    UntilFailureStopsAt(sends, i);
    forall j, s | i < j < |sends| && s in r ensures s.recipient != sends[j].recipient {
      var k :| 0 <= k < |r| && r[k] == s;
      assert r[k] == sends[k];
    }
  }

  /** The attempts made from position `i` on, after those already made (`made`): the one
      at `i`, and the rest only when it went through. */
  lemma UntilFailureFrom(made: seq<Send>, sends: seq<Send>, i: nat)
    requires i < |sends|
    ensures sends[i].delivered ==>
      made + UntilFailure(sends[i..]) == (made + [sends[i]]) + UntilFailure(sends[i + 1..])
    ensures !sends[i].delivered ==> made + UntilFailure(sends[i..]) == made + [sends[i]]
  {
    assert sends[i..][1..] == sends[i + 1..];
    if sends[i].delivered {
      assert UntilFailure(sends[i..]) == [sends[i]] + UntilFailure(sends[i + 1..]);
    }
  }
}
