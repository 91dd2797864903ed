/** Presentation timestamps: `callbackH264` takes the sensor's timestamps relative to the first
    one and repairs any that do not advance.  Arithmetic is exact here; `FitsInt64` says exactly
    when the 64-bit arithmetic of the source is exact too. */
module Timestamps {
  import opened Wrappers

  /** The timestamp after `last` for a frame `raw` microseconds after the first. */
  function Repair(last: int, raw: int, duration: int): int {
    if raw <= last then last + duration else raw
  }

  /** The timestamps given to frames with sensor timestamps `ts`. */
  function Pts(ts: seq<int>, duration: int): (pts: seq<int>)
    ensures |pts| == |ts|
  {
    if ts == [] then []
    else
      var before := Pts(ts[..|ts| - 1], duration);
      before + [Repair(if before == [] then -1 else before[|before| - 1], ts[|ts| - 1] - ts[0], duration)]
  }

  lemma {:induction false} PtsSnoc(ts: seq<int>, t: int, duration: int)
    ensures var pts := Pts(ts, duration);
            Pts(ts + [t], duration)
            == pts + [if ts == [] then Repair(-1, 0, duration) else Repair(pts[|pts| - 1], t - ts[0], duration)]
  {
    assert (ts + [t])[..|ts|] == ts;
  }

  // ----- the callback's state

  class H264State {
    const frameDuration: int
    var streamReady: bool            // the stream analysis has succeeded
    var firstTs: Option<int>
    var lastPts: int
    ghost var sensor: seq<int>       // sensor timestamps of the frames broadcast so far
    ghost var broadcast: seq<int>    // and the timestamps they were given

    ghost predicate Valid()
      reads this
    {
      && broadcast == Pts(sensor, frameDuration)
      && (if sensor == [] then firstTs.None? && lastPts == -1
          else firstTs == Some(sensor[0]) && lastPts == broadcast[|broadcast| - 1])
    }

    /** The frame rate is a byte in the configuration, so the frame duration is positive. */
    constructor (framerate: nat)
      requires framerate < 256
      ensures Valid() && !streamReady && sensor == []
      ensures 3921 <= frameDuration <= 1_000_000
      ensures var rate := if framerate == 0 then 1 else framerate;
              frameDuration * rate <= 1_000_000 < (frameDuration + 1) * rate
    {
      var rate := if framerate < 1 then 1 else framerate;
      frameDuration := 1_000_000 / rate;
      streamReady, firstTs, lastPts := false, None, -1;
      sensor, broadcast := [], [];
    }

    /** One encoded frame.  Until the stream has been analysed frames are dropped; the analysis
        succeeds at most once, and only then is the stream announced, if its description can be
        built; frames flow from then on in any case. */
    method OnFrame(timestamp: int, analysed: bool, described: bool) returns (pts: Option<int>, announce: bool)
      requires Valid()
      modifies this
      ensures Valid()
      ensures streamReady == (old(streamReady) || analysed) && announce == (!old(streamReady) && analysed && described)
      ensures sensor == if streamReady then old(sensor) + [timestamp] else old(sensor)
      ensures pts == if streamReady then Some(broadcast[|broadcast| - 1]) else None
    {
      announce := false;
      if !streamReady {
        streamReady := analysed;
        announce := analysed && described;
      }
      if !streamReady {
        return None, announce;
      }
      var p := Stamp(timestamp);
      pts := Some(p);
    }

    /** The timestamp of a frame that is broadcast. */
    method Stamp(timestamp: int) returns (p: int)
      requires Valid()
      modifies this`firstTs, this`lastPts, this`sensor, this`broadcast
      ensures Valid()
      ensures sensor == old(sensor) + [timestamp] && broadcast == old(broadcast) + [p]
    {
      hide Pts;
      PtsSnoc(sensor, timestamp, frameDuration);
      if firstTs.None? {
        firstTs := Some(timestamp);
      }
      p := timestamp - firstTs.value;
      if p <= lastPts {
        p := lastPts + frameDuration;
      }
      lastPts := p;
      sensor := sensor + [timestamp];
      broadcast := broadcast + [p];
    }
  }

  // ----- what the timestamps promise, for any sensor

  /** Microseconds from the first frame to frame `n`, by the sensor. */
  function Raw(ts: seq<int>, n: nat): int
    requires n < |ts|
  {
    ts[n] - ts[0]
  }

  lemma {:induction false} PtsStep(ts: seq<int>, duration: int, n: nat)
    requires n < |ts|
    ensures Pts(ts, duration)[n] == if n == 0 then 0 else Repair(Pts(ts, duration)[n - 1], Raw(ts, n), duration)
    decreases |ts|
  {
    if n < |ts| - 1 {
      PtsStep(ts[..|ts| - 1], duration, n);
    }
  }

  /** Timestamps start at zero, strictly increase, and never fall behind the sensor. */
  lemma {:induction false} Advances(ts: seq<int>, duration: int, n: nat)
    requires duration > 0 && n < |ts|
    ensures Pts(ts, duration)[0] == 0
    ensures n > 0 ==> Pts(ts, duration)[n] > Pts(ts, duration)[n - 1]
    ensures Pts(ts, duration)[n] >= Raw(ts, n)
  {
    PtsStep(ts, duration, 0);
    PtsStep(ts, duration, n);
  }

  lemma {:induction false} Increasing(ts: seq<int>, duration: int, m: nat, n: nat)
    requires duration > 0 && m < n < |ts|
    ensures Pts(ts, duration)[m] < Pts(ts, duration)[n]
    decreases n
  {
    Advances(ts, duration, n);
    if m < n - 1 {
      Increasing(ts, duration, m, n - 1);
    }
  }

  /** Every timestamp is some sensor timestamp, carried on at the nominal frame rate. */
  lemma {:induction false} Explained(ts: seq<int>, duration: int, n: nat) returns (j: nat)
    requires n < |ts|
    ensures j <= n && Pts(ts, duration)[n] == Raw(ts, j) + (n - j) * duration
    ensures forall k :: j < k <= n ==> Pts(ts, duration)[k] == Pts(ts, duration)[k - 1] + duration
  {
    PtsStep(ts, duration, n);
    if n == 0 || Raw(ts, n) > Pts(ts, duration)[n - 1] {
      j := n;
    } else {
      j := Explained(ts, duration, n - 1);
      assert (n - 1 - j) * duration + duration == (n - j) * duration;
    }
  }

  predicate StrictlyIncreasing(ts: seq<int>) {
    forall i :: 0 < i < |ts| ==> ts[i - 1] < ts[i]
  }

  lemma {:induction false} ExactAt(ts: seq<int>, duration: int, n: nat)
    requires n < |ts| && StrictlyIncreasing(ts)
    ensures Pts(ts, duration)[n] == Raw(ts, n)
  {
    PtsStep(ts, duration, n);
    if n > 0 {
      ExactAt(ts, duration, n - 1);
    }
  }

  /** The timestamps are the sensor's own, throughout, exactly when those strictly increase. */
  lemma {:induction false} ExactIff(ts: seq<int>, duration: int)
    requires duration > 0
    ensures (forall n :: 0 <= n < |ts| ==> Pts(ts, duration)[n] == Raw(ts, n)) <==> StrictlyIncreasing(ts)
  {
    if StrictlyIncreasing(ts) {
      forall n | 0 <= n < |ts| ensures Pts(ts, duration)[n] == Raw(ts, n) {
        ExactAt(ts, duration, n);
      }
    } else {
      var i :| 0 < i < |ts| && ts[i - 1] >= ts[i];
      Advances(ts, duration, i);
      assert Pts(ts, duration)[i] != Raw(ts, i) || Pts(ts, duration)[i - 1] != Raw(ts, i - 1);
    }
  }

  /** How far frame `n` is stamped ahead of the sensor. */
  function Drift(ts: seq<int>, duration: int, n: nat): int
    requires n < |ts|
  {
    Pts(ts, duration)[n] - Raw(ts, n)
  }

  /** Over a stretch of frames the sensor spaces at least `duration + gain` apart, the drift
      shrinks by `gain` a frame until it is gone; with `gain` zero it never grows. */
  lemma {:induction false} DriftDecays(ts: seq<int>, duration: int, n: nat, m: nat, gain: nat)
    requires duration > 0 && n + m < |ts|
    requires forall i :: n < i <= n + m ==> ts[i] - ts[i - 1] >= duration + gain
    ensures 0 <= Drift(ts, duration, n + m)
    ensures Drift(ts, duration, n + m) <= Drift(ts, duration, n) - m * gain || Drift(ts, duration, n + m) == 0
  {
    Advances(ts, duration, n + m);
    if m > 0 {
      DriftDecays(ts, duration, n, m - 1, gain);
      PtsStep(ts, duration, n + m);
      assert (m - 1) * gain + gain == m * gain;
    }
  }

  const INT64_MAX: int := 0x7fff_ffff_ffff_ffff

  /** No frame is further than `span` microseconds from the first, by the sensor. */
  predicate Within(ts: seq<int>, span: int) {
    forall i :: 0 <= i < |ts| ==> -span <= Raw(ts, i) <= span
  }

  /** Every difference and every timestamp computed fits 64 bits. */
  predicate AllFit(ts: seq<int>, duration: int) {
    forall i :: 0 <= i < |ts| ==>
      -INT64_MAX <= Raw(ts, i) <= INT64_MAX && 0 <= Pts(ts, duration)[i] <= INT64_MAX
  }

  /** The latest timestamp frame `n` can get within `span`: all frames after the first at its own
      time, or all at `span`. */
  function Latest(duration: int, span: int, n: nat): int {
    if span <= duration then n * duration else span + (n - 1) * duration
  }

  lemma {:induction false} LatestBounds(duration: int, span: int, n: nat, i: nat, j: nat, raw: int)
    requires duration > 0 && j <= i <= n && raw <= span && (j == 0 ==> raw == 0) && n > 0 && span >= 0
    ensures raw + (i - j) * duration <= Latest(duration, span, n) && span <= Latest(duration, span, n)
  {
    assert n * duration == duration + (n - 1) * duration;
    assert (n - 1) * duration >= 0;
    if j == 0 {
      assert (n - i) * duration >= 0 && n * duration == i * duration + (n - i) * duration;
    } else {
      assert (n - 1 - (i - j)) * duration >= 0;
      assert (n - 1) * duration == (i - j) * duration + (n - 1 - (i - j)) * duration;
    }
  }

  lemma {:induction false} FitsWithin(ts: seq<int>, duration: int, span: int, n: nat)
    requires duration > 0 && span >= 0 && n > 0 && |ts| == n + 1 && Within(ts, span)
    requires Latest(duration, span, n) <= INT64_MAX
    ensures AllFit(ts, duration)
  {
    forall i | 0 <= i < |ts|
      ensures -INT64_MAX <= Raw(ts, i) <= INT64_MAX && 0 <= Pts(ts, duration)[i] <= INT64_MAX
    {
      var j := Explained(ts, duration, i);
      LatestBounds(duration, span, n, i, j, Raw(ts, j));
      Advances(ts, duration, 0);
      if i > 0 {
        Increasing(ts, duration, 0, i);
      }
    }
  }

  /** The frames of the worst case: the first at 0, the others at `at`. */
  function Stuck(at: int, n: nat): (ts: seq<int>)
    ensures |ts| == n + 1
  {
    [0] + seq(n, _ => at)
  }

  lemma {:induction false} StuckPts(at: int, duration: int, n: nat, i: nat)
    requires duration > 0 && at >= 0 && i <= n
    ensures Pts(Stuck(at, n), duration)[i]
            == if i == 0 then 0 else if at == 0 then i * duration else at + (i - 1) * duration
  {
    PtsStep(Stuck(at, n), duration, i);
    if i > 0 {
      StuckPts(at, duration, n, i - 1);
      assert Raw(Stuck(at, n), i) == at;
      hide Pts, Stuck;
      OneMore(i - 1, duration);
      if i > 1 {
        OneMore(i - 2, duration);
      }
    }
  }

  lemma {:induction false} OneMore(k: nat, duration: int)
    requires duration > 0
    ensures (k + 1) * duration == k * duration + duration && k * duration >= 0
  {
  }

  lemma {:induction false} WorstCase(duration: int, span: int, n: nat) returns (ts: seq<int>)
    requires duration > 0 && span >= 0 && n > 0
    ensures |ts| == n + 1 && Within(ts, span) && Pts(ts, duration)[n] == Latest(duration, span, n)
  {
    var at := if span <= duration then 0 else span;
    ts := Stuck(at, n);
    StuckPts(at, duration, n, n);
  }

  /** Exactly when 64-bit arithmetic is exact: for all sensor timestamps of `n + 1` frames within
      `span` of the first, no difference and no timestamp overflows, if and only if the latest
      timestamp possible fits. */
  lemma {:induction false} FitsInt64(duration: int, span: int, n: nat)
    requires duration > 0 && span >= 0 && n > 0
    ensures (forall ts: seq<int> :: |ts| == n + 1 && Within(ts, span) ==> AllFit(ts, duration))
            <==> Latest(duration, span, n) <= INT64_MAX
  {
    if Latest(duration, span, n) <= INT64_MAX {
      forall ts: seq<int> | |ts| == n + 1 && Within(ts, span) ensures AllFit(ts, duration) {
        FitsWithin(ts, duration, span, n);
      }
    } else {
      var ts := WorstCase(duration, span, n);
      assert !AllFit(ts, duration);
    }
  }
}
