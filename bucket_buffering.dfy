/** The distance-bucket policy shared by `ProximityAlertBuffer` (TorchAlert.Core) and
    `ProximityAlarmBuffer` (TorchAlarm.Core): per key, an alert passes the first time the key
    is seen and afterwards only when its distance bucket differs from the bucket of the alert
    stored for that key, which it then replaces. Keys are never removed. */
module BucketBuffering {
  import opened Seqs

  /** One alert through the buffer: whether it is emitted, and the buffer afterwards. */
  function Step<A, K(==)>(key: A -> K, scope: A -> int, buffer: map<K, A>, a: A): (bool, map<K, A>)
  {
    var k := key(a);
    if k !in buffer || scope(buffer[k]) != scope(a) then (true, buffer[k := a]) else (false, buffer)
  }

  /** A whole call of `Buffer`, enumerated to the end: the emitted alerts and the new buffer. */
  function Run<A, K(==)>(key: A -> K, scope: A -> int, buffer: map<K, A>, alerts: seq<A>): (seq<A>, map<K, A>)
    decreases |alerts|
  {
    if alerts == [] then ([], buffer)
    else
      var (out, b) := Run(key, scope, buffer, DropLast(alerts));
      var (emit, b') := Step(key, scope, b, Last(alerts));
      (if emit then out + [Last(alerts)] else out, b')
  }

  /** The keys of some alerts. */
  function KeysOf<A, K>(key: A -> K, alerts: seq<A>): set<K> {
    set i | 0 <= i < |alerts| :: key(alerts[i])
  }

  /** The three cases of one more alert: a new key is stored and emitted; a key whose stored
      alert is in the same bucket drops the alert and leaves the buffer as it was; a bucket
      change replaces the stored alert and emits. */
  lemma {:induction false} RunAppendCases<A, K>(key: A -> K, scope: A -> int, buffer: map<K, A>, alerts: seq<A>, a: A)
    ensures var (out, b) := Run(key, scope, buffer, alerts);
      var k := key(a);
      (k !in b ==> Run(key, scope, buffer, alerts + [a]) == (out + [a], b[k := a])) &&
      (k in b && scope(b[k]) == scope(a) ==> Run(key, scope, buffer, alerts + [a]) == (out, b)) &&
      (k in b && scope(b[k]) != scope(a) ==> Run(key, scope, buffer, alerts + [a]) == (out + [a], b[k := a]))
  {
    assert DropLast(alerts + [a]) == alerts;
  }

  /** The output is the input with some alerts left out, in order. */
  lemma {:induction false} RunIsSubsequence<A, K>(key: A -> K, scope: A -> int, buffer: map<K, A>, alerts: seq<A>)
    ensures IsSubsequence(Run(key, scope, buffer, alerts).0, alerts)
    decreases |alerts|
  {
    if alerts == [] {
      EmptyIsSubsequence(alerts);
    } else {
      var xs, a := DropLast(alerts), Last(alerts);
      assert alerts == xs + [a];
      RunIsSubsequence(key, scope, buffer, xs);
      var out := Run(key, scope, buffer, xs).0;
      if Run(key, scope, buffer, alerts).0 == out {
        SubsequenceSkip(out, xs, a);
      } else {
        SubsequenceTake(out, xs, a);
      }
    }
  }

  /** No key is ever removed: afterwards the buffer holds the old keys and every key seen. */
  lemma {:induction false} RunKeys<A, K>(key: A -> K, scope: A -> int, buffer: map<K, A>, alerts: seq<A>)
    ensures Run(key, scope, buffer, alerts).1.Keys == buffer.Keys + KeysOf(key, alerts)
    decreases |alerts|
  {
    if alerts != [] {
      var xs, a := DropLast(alerts), Last(alerts);
      assert alerts == xs + [a];
      RunKeys(key, scope, buffer, xs);
      assert KeysOf(key, alerts) == KeysOf(key, xs) + {key(a)};
    }
  }

  /** The alerts emitted for key `k`, in order. */
  function EmittedFor<A, K(==)>(key: A -> K, out: seq<A>, k: K): seq<A> {
    Keep(out, a => key(a) == k)
  }

  /** The stored alert changes only when an alert is emitted: for each key, it is the last
      alert emitted for that key, or the old entry when none was. */
  lemma {:induction false} StoredIsLastEmitted<A, K>(key: A -> K, scope: A -> int, buffer: map<K, A>, alerts: seq<A>, k: K)
    requires k in Run(key, scope, buffer, alerts).1
    ensures var (out, b) := Run(key, scope, buffer, alerts);
      var sent := EmittedFor(key, out, k);
      (sent == [] ==> k in buffer && b[k] == buffer[k]) &&
      (sent != [] ==> b[k] == Last(sent))
    decreases |alerts|
  {
    if alerts != [] {
      var xs, a := DropLast(alerts), Last(alerts);
      var (out, b) := Run(key, scope, buffer, xs);
      var p := (x: A) => key(x) == k;
      RunAppendCases(key, scope, buffer, xs, a);
      assert alerts == xs + [a];
      KeepAppend(out, a, p);
      if k in b {
        StoredIsLastEmitted(key, scope, buffer, xs, k);
      }
    }
  }

  /** Consecutive alerts in `sent` lie in different buckets, and the first one lies in a
      different bucket from `stored`, when there is one. */
  predicate BucketsChange<A>(scope: A -> int, stored: seq<A>, sent: seq<A>)
    requires |stored| <= 1
  {
    var all := stored + sent;
    forall i :: 0 < i < |all| ==> scope(all[i - 1]) != scope(all[i])
  }

  lemma {:induction false} BucketsChangeAppend<A>(scope: A -> int, stored: seq<A>, sent: seq<A>, a: A)
    requires |stored| <= 1 && BucketsChange(scope, stored, sent)
    requires stored + sent != [] ==> scope(Last(stored + sent)) != scope(a)
    ensures BucketsChange(scope, stored, sent + [a])
  {
    assert stored + (sent + [a]) == (stored + sent) + [a];
  }

  /** Whenever an alert was stored or emitted for a key, the buffer holds the latest of them. */
  lemma {:induction false} StoredIsLatest<A, K>(key: A -> K, scope: A -> int, buffer: map<K, A>, alerts: seq<A>, k: K)
    ensures var (out, b) := Run(key, scope, buffer, alerts);
      var stored := if k in buffer then [buffer[k]] else [];
      var sent := EmittedFor(key, out, k);
      stored + sent != [] ==> k in b && Last(stored + sent) == b[k]
  {
    var (out, b) := Run(key, scope, buffer, alerts);
    var sent := EmittedFor(key, out, k);
    RunKeys(key, scope, buffer, alerts);
    if sent != [] {
      KeepIsSubsequence(out, (x: A) => key(x) == k);
      assert Last(sent) in out;
      RunOutputKeys(key, scope, buffer, alerts, Last(sent));
    }
    if k in b {
      StoredIsLastEmitted(key, scope, buffer, alerts, k);
    }
  }

  /** Per key, the emitted alerts never repeat the bucket of the alert before them, starting
      from the alert stored before the call: a re-alert happens only on a bucket change. */
  lemma {:induction false} EmittedBucketsChange<A, K>(key: A -> K, scope: A -> int, buffer: map<K, A>, alerts: seq<A>, k: K)
    ensures var out := Run(key, scope, buffer, alerts).0;
      BucketsChange(scope, if k in buffer then [buffer[k]] else [], EmittedFor(key, out, k))
    decreases |alerts|
  {
    var stored := if k in buffer then [buffer[k]] else [];
    if alerts != [] {
      var xs, a := DropLast(alerts), Last(alerts);
      var (out, b) := Run(key, scope, buffer, xs);
      var sent := EmittedFor(key, out, k);
      EmittedBucketsChange(key, scope, buffer, xs, k);
      RunAppendCases(key, scope, buffer, xs, a);
      assert alerts == xs + [a];
      KeepAppend(out, a, (x: A) => key(x) == k);
      var out' := Run(key, scope, buffer, alerts).0;
      if key(a) == k && out' == out + [a] {
        assert EmittedFor(key, out', k) == sent + [a];
        StoredIsLatest(key, scope, buffer, xs, k);
        BucketsChangeAppend(scope, stored, sent, a);
      } else {
        assert EmittedFor(key, out', k) == sent;
      }
    }
  }

  /** Every emitted alert's key is stored afterwards. */
  lemma {:induction false} RunOutputKeys<A, K>(key: A -> K, scope: A -> int, buffer: map<K, A>, alerts: seq<A>, a: A)
    requires a in Run(key, scope, buffer, alerts).0
    ensures key(a) in Run(key, scope, buffer, alerts).1
  {
    RunIsSubsequence(key, scope, buffer, alerts);
    SubsequenceElements(Run(key, scope, buffer, alerts).0, alerts);
    RunKeys(key, scope, buffer, alerts);
    var i :| 0 <= i < |alerts| && alerts[i] == a;
    assert key(alerts[i]) in KeysOf(key, alerts);
  }
}
