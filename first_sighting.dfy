/** The first-sighting policy shared by `ProximityAlertBuffer` of TorchAlert.Core.Proximity and
    of TorchAlert.Proximity: an alert passes only when its key is not buffered; once the call's
    input is exhausted the buffer keeps only the keys that input mentioned, so a pair missing
    from one call is announced again when it comes back. */
module FirstSighting {
  import opened Seqs

  /** The loop of `Buffer`: the emitted alerts and the buffer before the final intersection. */
  function Pass<A, K(==)>(key: A -> K, buffer: map<K, A>, alerts: seq<A>): (seq<A>, map<K, A>)
    decreases |alerts|
  {
    if alerts == [] then ([], buffer)
    else
      var (out, b) := Pass(key, buffer, DropLast(alerts));
      var a := Last(alerts);
      if key(a) in b then (out, b) else (out + [a], b[key(a) := a])
  }

  function KeysOf<A, K>(key: A -> K, alerts: seq<A>): set<K> {
    set i | 0 <= i < |alerts| :: key(alerts[i])
  }

  /** `IntersectWith`: the entries whose key is among `keys`. */
  function Restrict<K, V>(m: map<K, V>, keys: set<K>): map<K, V> {
    map k | k in m && k in keys :: m[k]
  }

  /** A whole call of `Buffer`, enumerated to the end. */
  function Call<A, K(==)>(key: A -> K, buffer: map<K, A>, alerts: seq<A>): (seq<A>, map<K, A>) {
    var (out, b) := Pass(key, buffer, alerts);
    (out, Restrict(b, KeysOf(key, alerts)))
  }

  lemma {:induction false} PassAppend<A, K>(key: A -> K, buffer: map<K, A>, alerts: seq<A>, a: A)
    ensures var (out, b) := Pass(key, buffer, alerts);
      Pass(key, buffer, alerts + [a]) ==
        if key(a) in b then (out, b) else (out + [a], b[key(a) := a])
  {
    assert DropLast(alerts + [a]) == alerts;
  }

  lemma {:induction false} PassKeys<A, K>(key: A -> K, buffer: map<K, A>, alerts: seq<A>)
    ensures Pass(key, buffer, alerts).1.Keys == buffer.Keys + KeysOf(key, alerts)
    decreases |alerts|
  {
    if alerts != [] {
      var xs, a := DropLast(alerts), Last(alerts);
      assert alerts == xs + [a];
      PassKeys(key, buffer, xs);
      assert KeysOf(key, alerts) == KeysOf(key, xs) + {key(a)};
    }
  }

  /** After a call the buffer holds exactly the keys of that call's input. */
  lemma {:induction false} CallKeys<A, K>(key: A -> K, buffer: map<K, A>, alerts: seq<A>)
    ensures Call(key, buffer, alerts).1.Keys == KeysOf(key, alerts)
  {
    PassKeys(key, buffer, alerts);
  }

  /** The output is the input with some alerts left out, in order. */
  lemma {:induction false} CallIsSubsequence<A, K>(key: A -> K, buffer: map<K, A>, alerts: seq<A>)
    ensures IsSubsequence(Call(key, buffer, alerts).0, alerts)
    decreases |alerts|
  {
    if alerts == [] {
      EmptyIsSubsequence(alerts);
    } else {
      var xs, a := DropLast(alerts), Last(alerts);
      assert alerts == xs + [a];
      CallIsSubsequence(key, buffer, xs);
      PassAppend(key, buffer, xs, a);
      var out := Pass(key, buffer, xs).0;
      if Pass(key, buffer, alerts).0 == out {
        SubsequenceSkip(out, xs, a);
      } else {
        SubsequenceTake(out, xs, a);
      }
    }
  }

  /** `i` is the first position of its key in `alerts`. */
  predicate FirstOfKey<A, K(==)>(key: A -> K, alerts: seq<A>, i: int) {
    0 <= i < |alerts| && forall j :: 0 <= j < i ==> key(alerts[j]) != key(alerts[i])
  }

  /** `x` is the alert at the first position of its key in `alerts`. */
  ghost predicate IsFirstSighting<A, K>(key: A -> K, alerts: seq<A>, x: A) {
    exists i :: 0 <= i < |alerts| && FirstOfKey(key, alerts, i) && alerts[i] == x
  }

  /** Only first sightings pass: every emitted alert is the first alert of its key in the
      input, its key was not buffered before the call, and no key is emitted twice. */
  lemma {:induction false} EmittedAreFirstSightings<A, K>(key: A -> K, buffer: map<K, A>, alerts: seq<A>)
    ensures var out := Call(key, buffer, alerts).0;
      (forall m :: 0 <= m < |out| ==>
        key(out[m]) !in buffer && IsFirstSighting(key, alerts, out[m])) &&
      (forall m, n :: 0 <= m < n < |out| ==> key(out[m]) != key(out[n]))
    decreases |alerts|
  {
    if alerts != [] {
      var xs, a := DropLast(alerts), Last(alerts);
      assert alerts == xs + [a];
      EmittedAreFirstSightings(key, buffer, xs);
      PassAppend(key, buffer, xs, a);
      var (out, b) := Pass(key, buffer, xs);
      forall m | 0 <= m < |out|
        ensures IsFirstSighting(key, alerts, out[m])
      {
        assert IsFirstSighting(key, xs, out[m]);
        var i :| 0 <= i < |xs| && FirstOfKey(key, xs, i) && xs[i] == out[m];
        forall j | 0 <= j < i
          ensures key(alerts[j]) != key(alerts[i])
        {
          assert alerts[j] == xs[j] && alerts[i] == xs[i];
        }
      }
      if key(a) !in b {
        PassKeys(key, buffer, xs);
        assert FirstOfKey(key, alerts, |xs|) by {
          forall j | 0 <= j < |xs|
            ensures key(alerts[j]) != key(a)
          {
            assert key(xs[j]) in KeysOf(key, xs);
          }
        }
        forall m | 0 <= m < |out|
          ensures key(out[m]) != key(a)
        {
          PassOutputKeys(key, buffer, xs, m);
        }
        var out' := out + [a];
        forall m | 0 <= m < |out'|
          ensures IsFirstSighting(key, alerts, out'[m])
        {
          if m == |out| {
            assert alerts[|xs|] == out'[m];
          } else {
            assert out'[m] == out[m];
          }
        }
      }
    }
  }

  /** Every alert emitted so far has its key buffered. */
  lemma {:induction false} PassOutputKeys<A, K>(key: A -> K, buffer: map<K, A>, alerts: seq<A>, m: int)
    requires 0 <= m < |Pass(key, buffer, alerts).0|
    ensures key(Pass(key, buffer, alerts).0[m]) in Pass(key, buffer, alerts).1
    decreases |alerts|
  {
    var xs, a := DropLast(alerts), Last(alerts);
    assert alerts == xs + [a];
    PassAppend(key, buffer, xs, a);
    if m < |Pass(key, buffer, xs).0| {
      PassOutputKeys(key, buffer, xs, m);
    }
  }

  /** Conversely, the first alert of a key that was not buffered is emitted. */
  lemma {:induction false} FirstSightingIsEmitted<A, K>(key: A -> K, buffer: map<K, A>, alerts: seq<A>, i: int)
    requires FirstOfKey(key, alerts, i) && key(alerts[i]) !in buffer
    ensures alerts[i] in Call(key, buffer, alerts).0
    decreases |alerts|
  {
    var xs, a := DropLast(alerts), Last(alerts);
    assert alerts == xs + [a];
    PassAppend(key, buffer, xs, a);
    if i < |xs| {
      assert FirstOfKey(key, xs, i);
      FirstSightingIsEmitted(key, buffer, xs, i);
    } else {
      PassKeys(key, buffer, xs);
    }
  }

  /** A key missing from one call is announced again by the next call that brings it back:
      the first alert of that key in the next call is emitted. */
  lemma ReappearanceIsAnnounced<A, K>(key: A -> K, buffer: map<K, A>, first: seq<A>, next: seq<A>, i: int)
    requires FirstOfKey(key, next, i) && key(next[i]) !in KeysOf(key, first)
    ensures next[i] in Call(key, Call(key, buffer, first).1, next).0
  {
    CallKeys(key, buffer, first);
    FirstSightingIsEmitted(key, Call(key, buffer, first).1, next, i);
  }
}

/** TorchAlert/TorchAlert.Core.Proximity/ProximityAlertBuffer.cs: first sightings keyed by
    (player steam id, offender grid id). */
module CoreProximityAlertBuffer {
  import opened Numerics
  import opened CoreProximityRecords
  import opened FirstSighting

  function Key(alert: ProximityAlert): (ULong, int) {
    (alert.steamId, alert.offender.gridId)
  }

  class ProximityAlertBuffer {
    var buffer: map<(ULong, int), ProximityAlert>

    constructor ()
      ensures buffer == map[]
    {
      buffer := map[];
    }

    /** `Buffer(alerts)`, enumerated to the end (the intersection runs after the last alert). */
    method Buffer(alerts: seq<ProximityAlert>) returns (emitted: seq<ProximityAlert>)
      modifies this
      ensures (emitted, buffer) == Call(Key, old(buffer), alerts)
    {
      emitted := [];
      var i := 0;
      while i < |alerts|
        invariant 0 <= i <= |alerts|
        invariant (emitted, buffer) == Pass(Key, old(buffer), alerts[..i])
      {
        var alert := alerts[i];
        var pair := (alert.steamId, alert.offender.gridId);
        PassAppend(Key, old(buffer), alerts[..i], alert);
        assert alerts[..i + 1] == alerts[..i] + [alert];
        if pair !in buffer {
          buffer := buffer[pair := alert];
          emitted := emitted + [alert];
        }
        i := i + 1;
      }
      assert alerts[..i] == alerts;
      var newAlerts := set j | 0 <= j < |alerts| :: (alerts[j].steamId, alerts[j].offender.gridId);
      assert newAlerts == KeysOf(Key, alerts);
      buffer := map k | k in buffer && k in newAlerts :: buffer[k];
    }
  }
}

/** TorchAlert/TorchAlert.Proximity/ProximityAlertBuffer.cs: first sightings keyed by
    (defender grid id, offender grid id). */
module ProximityAlertBuffer {
  import opened ProximityRecords
  import opened FirstSighting

  function Key(alert: ProximityAlert): (int, int) {
    (alert.gridId, alert.offender.gridId)
  }

  class ProximityAlertBuffer {
    var buffer: map<(int, int), ProximityAlert>

    constructor ()
      ensures buffer == map[]
    {
      buffer := map[];
    }

    /** `Buffer(alerts)`, enumerated to the end (the intersection runs after the last alert). */
    method Buffer(alerts: seq<ProximityAlert>) returns (emitted: seq<ProximityAlert>)
      modifies this
      ensures (emitted, buffer) == Call(Key, old(buffer), alerts)
    {
      emitted := [];
      var i := 0;
      while i < |alerts|
        invariant 0 <= i <= |alerts|
        invariant (emitted, buffer) == Pass(Key, old(buffer), alerts[..i])
      {
        var alert := alerts[i];
        var pair := (alert.gridId, alert.offender.gridId);
        PassAppend(Key, old(buffer), alerts[..i], alert);
        assert alerts[..i + 1] == alerts[..i] + [alert];
        if pair !in buffer {
          buffer := buffer[pair := alert];
          emitted := emitted + [alert];
        }
        i := i + 1;
      }
      assert alerts[..i] == alerts;
      var newAlerts := set j | 0 <= j < |alerts| :: (alerts[j].gridId, alerts[j].offender.gridId);
      assert newAlerts == KeysOf(Key, alerts);
      buffer := map k | k in buffer && k in newAlerts :: buffer[k];
    }
  }
}
