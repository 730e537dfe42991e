/** Distance buckets, shared by both bucket buffers: `(int) (Distance / BufferDistance)`. */
module DistanceBuckets {
  import opened Numerics

  /** `BufferDistance` from the configuration. A width of zero makes the quotient infinite or
      NaN, whose `(int)` cast .NET leaves unspecified, so it is not a value of this type. */
  type BufferDistance = d: real | d != 0.0 witness 1.0

  /** The width of the bands: the magnitude of `BufferDistance`. */
  function Width(w: BufferDistance): (r: real)
    ensures r > 0.0 && (r == w || r == -(w as real))
  {
    var x: real := w;
    if x > 0.0 then x else -x
  }

  /** The band a scope names: the scope itself for a positive width, its negation for a
      negative one, since the quotient then changes sign. */
  function Band(scope: int, w: BufferDistance): int {
    if w > 0.0 then scope else -scope
  }

  /** The distance lies in band `n` of width `w`: `n * w <= d < (n + 1) * w`. */
  predicate InBand(d: real, w: real, n: int) {
    n as real * w <= d < (n + 1) as real * w
  }

  /** `GetBufferScope`: the index of the band of width `|bufferDistance|` the distance falls
      in, negated when the configured width is negative. */
  function GetBufferScope(distance: real, bufferDistance: BufferDistance): (r: int)
    ensures distance >= 0.0 ==> Band(r, bufferDistance) >= 0
    ensures distance >= 0.0 ==> InBand(distance, Width(bufferDistance), Band(r, bufferDistance))
  {
    BandOfQuotient(distance, bufferDistance);
    Truncate(distance / bufferDistance)
  }

  lemma BandOfQuotient(distance: real, w: BufferDistance)
    ensures var n := Band(Truncate(distance / w), w);
      distance >= 0.0 ==> n >= 0 && InBand(distance, Width(w), n)
  {
    var width := Width(w);
    var u := distance / width;
    var n := Band(Truncate(distance / w), w);
    if distance >= 0.0 {
      assert distance == u * width;
      ScaleLt(u, 0.0, width);
      assert n == Truncate(u) by {
        if w < 0.0 {
          assert distance / w == -u;
        }
      }
      InBandOfQuotient(distance, width, u, n);
    }
  }

  /** A distance `u * w` with `n <= u < n + 1` lies in band `n`. */
  lemma InBandOfQuotient(d: real, w: real, u: real, n: int)
    requires w > 0.0 && d == u * w
    requires n as real <= u < (n + 1) as real
    ensures InBand(d, w, n)
  {
    ScaleLe(n as real, u, w);
    ScaleLt(u, (n + 1) as real, w);
  }

  /** Two non-negative distances share a bucket exactly when they lie in the same band. */
  lemma SameBucketIffSameBand(d1: real, d2: real, bufferDistance: BufferDistance, n: int)
    requires d1 >= 0.0 && d2 >= 0.0
    requires InBand(d1, Width(bufferDistance), n)
    ensures GetBufferScope(d2, bufferDistance) == GetBufferScope(d1, bufferDistance) <==>
      InBand(d2, Width(bufferDistance), n)
  {
    var r1, r2 := GetBufferScope(d1, bufferDistance), GetBufferScope(d2, bufferDistance);
    BandInjective(r1, r2, bufferDistance);
    SameBandIff(d1, d2, Width(bufferDistance), n, Band(r1, bufferDistance), Band(r2, bufferDistance));
  }

  lemma BandInjective(r1: int, r2: int, w: BufferDistance)
    ensures Band(r1, w) == Band(r2, w) <==> r1 == r2
  {
  }

  /** Given the bands of two distances, the second lies in the first's band exactly when the
      band indices agree. */
  lemma SameBandIff(d1: real, d2: real, w: real, n: int, b1: int, b2: int)
    requires w > 0.0
    requires InBand(d1, w, n) && InBand(d1, w, b1) && InBand(d2, w, b2)
    ensures b2 == b1 <==> InBand(d2, w, n)
  {
    BandIsUnique(d1, w, n, b1);
    if InBand(d2, w, n) {
      BandIsUnique(d2, w, n, b2);
    }
  }

  lemma BandIsUnique(d: real, w: real, n: int, m: int)
    requires w > 0.0
    requires InBand(d, w, n) && InBand(d, w, m)
    ensures n == m
  {
    AtMostNext(d, w, m, n);
    AtMostNext(d, w, n, m);
  }

  /** A band that starts at or below `d` is no higher than a band that ends above it. */
  lemma AtMostNext(d: real, w: real, m: int, n: int)
    requires w > 0.0
    requires m as real * w <= d < (n + 1) as real * w
    ensures m <= n
  {
    if m > n {
      ScaleLe((n + 1) as real, m as real, w);
    }
  }

  /** Scaling by a positive width keeps the order of two reals, both ways. */
  lemma ScaleLe(a: real, b: real, w: real)
    requires w > 0.0
    ensures a * w <= b * w <==> a <= b
  {
  }

  lemma ScaleLt(a: real, b: real, w: real)
    requires w > 0.0
    ensures a * w < b * w <==> a < b
  {
  }
}

/** TorchAlert/TorchAlert.Core/ProximityAlertBuffer.cs: re-alert on a change of distance
    bucket, keyed by (defender grid id, offender grid id). */
module CoreAlertBuffer {
  import opened Wrappers
  import opened Seqs
  import opened CoreRecords
  import opened BucketBuffering
  import opened DistanceBuckets

  function Key(alert: ProximityAlert): (int, int) {
    (alert.gridId, alert.offender.gridId)
  }

  /** `ProximityAlertBuffer.IConfig`: the configured width, which the plugin's configuration
      may change between calls. */
  class Config {
    var bufferDistance: BufferDistance

    constructor (bufferDistance: BufferDistance)
      ensures this.bufferDistance == bufferDistance
    {
      this.bufferDistance := bufferDistance;
    }
  }

  class ProximityAlertBuffer {
    const config: Config
    var buffer: map<(int, int), ProximityAlert>

    /** The bucket of an alert under the width configured right now. */
    function Scope(): ProximityAlert -> int
      reads this, config
    {
      var w := config.bufferDistance;
      (a: ProximityAlert) => GetBufferScope(a.distance, w)
    }

    constructor (config: Config)
      ensures this.config == config && buffer == map[]
    {
      this.config := config;
      buffer := map[];
    }

    /** `Buffer(alerts)`, enumerated to the end. */
    method Buffer(alerts: seq<ProximityAlert>) returns (emitted: seq<ProximityAlert>)
      modifies this
      ensures (emitted, buffer) == Run(Key, Scope(), old(buffer), alerts)
    {
      emitted := [];
      var i := 0;
      while i < |alerts|
        invariant 0 <= i <= |alerts|
        invariant (emitted, buffer) == Run(Key, Scope(), old(buffer), alerts[..i])
      {
        var alert := alerts[i];
        var key := (alert.gridId, alert.offender.gridId);
        assert DropLast(alerts[..i + 1]) == alerts[..i];
        if key !in buffer {
          buffer := buffer[key := alert];
          emitted := emitted + [alert];
        } else {
          var lastAlert := buffer[key];
          if GetBufferScope(alert.distance, config.bufferDistance) != GetBufferScope(lastAlert.distance, config.bufferDistance) {
            buffer := buffer[key := alert];
            emitted := emitted + [alert];
          }
        }
        i := i + 1;
      }
      assert alerts[..i] == alerts;
    }
  }

  /** The width is read on every call: with width 10 an alert at 15 is emitted (bucket 1);
      once the width is set to 30, the same pair at 25 shares bucket 0 with the stored alert
      and is held back, although under the old width it would have changed bucket. */
  method ReconfiguredWidth() returns (first: seq<ProximityAlert>, second: seq<ProximityAlert>)
    ensures |first| == 1 && second == []
  {
    var offender := OffenderGridInfo(2, "theirs", None, None, None, None);
    var near := ProximityAlert(7, 1, "ours", 15.0, offender);
    var far := ProximityAlert(7, 1, "ours", 25.0, offender);
    var config := new Config(10.0);
    var buffer := new ProximityAlertBuffer(config);
    first := buffer.Buffer([near]);
    assert DropLast([near]) == [];
    assert buffer.buffer == map[(1, 2) := near];
    config.bufferDistance := 30.0;
    assert GetBufferScope(15.0, 30.0) == GetBufferScope(25.0, 30.0) == 0;
    second := buffer.Buffer([far]);
    assert DropLast([far]) == [];
  }
}

/** TorchAlarm/TorchAlarm.Core/ProximityAlarmBuffer.cs: the same bucket policy for alarms. */
module AlarmBuffer {
  import opened Seqs
  import opened AlarmRecords
  import opened BucketBuffering
  import opened DistanceBuckets

  function Key(alarm: ProximityAlarm): (int, int) {
    (alarm.gridId, alarm.offender.gridId)
  }

  /** `ProximityAlarmBuffer.IConfig`: the configured width, which the plugin's configuration
      may change between calls. */
  class Config {
    var bufferDistance: BufferDistance

    constructor (bufferDistance: BufferDistance)
      ensures this.bufferDistance == bufferDistance
    {
      this.bufferDistance := bufferDistance;
    }
  }

  class ProximityAlarmBuffer {
    const config: Config
    var buffer: map<(int, int), ProximityAlarm>

    /** The bucket of an alarm under the width configured right now. */
    function Scope(): ProximityAlarm -> int
      reads this, config
    {
      var w := config.bufferDistance;
      (a: ProximityAlarm) => GetBufferScope(a.distance, w)
    }

    constructor (config: Config)
      ensures this.config == config && buffer == map[]
    {
      this.config := config;
      buffer := map[];
    }

    /** `Buffer(alarms)`, enumerated to the end. */
    method Buffer(alarms: seq<ProximityAlarm>) returns (emitted: seq<ProximityAlarm>)
      modifies this
      ensures (emitted, buffer) == Run(Key, Scope(), old(buffer), alarms)
    {
      emitted := [];
      var i := 0;
      while i < |alarms|
        invariant 0 <= i <= |alarms|
        invariant (emitted, buffer) == Run(Key, Scope(), old(buffer), alarms[..i])
      {
        var alarm := alarms[i];
        var key := (alarm.gridId, alarm.offender.gridId);
        assert DropLast(alarms[..i + 1]) == alarms[..i];
        if key !in buffer {
          buffer := buffer[key := alarm];
          emitted := emitted + [alarm];
        } else {
          var lastAlarm := buffer[key];
          if GetBufferScope(alarm.distance, config.bufferDistance) != GetBufferScope(lastAlarm.distance, config.bufferDistance) {
            buffer := buffer[key := alarm];
            emitted := emitted + [alarm];
          }
        }
        i := i + 1;
      }
      assert alarms[..i] == alarms;
    }
  }
}
