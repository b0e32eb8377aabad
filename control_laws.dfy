/** The arithmetic of the waypoint-following controller: the output clamps,
    the nearest-waypoint rule, the speed-target rule, the PID step with its
    bookkeeping, the pure-pursuit target choice and the arming flag.
    Everything is over `real`; square roots are replaced by squared distances
    (the square root is monotone on non-negative numbers, so every comparison
    the controller makes between two distances has the same outcome). */
module ControlLaws {

  /** One point of the reference path with the speed to hold there. */
  datatype Waypoint = Waypoint(x: real, y: real, speed: real)

  datatype Option<T> = None | Some(value: T)

  /** `min_dist` of the nearest-waypoint scan starts at positive infinity. */
  datatype Distance = Infinity | Finite(value: real)

  /** `dist < min_dist` where `min_dist` may still be infinite. */
  predicate Below(d: real, m: Distance)
  {
    m.Infinity? || d < m.value
  }

  // ---------------------------------------------------------------------
  // Output stage

  /** `fmax(fmin(u, hi), lo)`: saturate a command into [lo, hi]. */
  function Clamp(u: real, lo: real, hi: real): (r: real)
    requires lo <= hi
    ensures lo <= r <= hi
    ensures lo <= u <= hi ==> r == u
    ensures u < lo ==> r == lo
    ensures hi < u ==> r == hi
  {
    var capped := if u < hi then u else hi;
    if capped > lo then capped else lo
  }

  /** Throttle and brake share one clamp into [0, 1]. */
  function PedalCommand(u: real): (r: real)
    ensures 0.0 <= r <= 1.0
    ensures 0.0 <= u <= 1.0 ==> r == u
    ensures u < 0.0 ==> r == 0.0
    ensures 1.0 < u ==> r == 1.0
  {
    Clamp(u, 0.0, 1.0)
  }

  lemma PedalCommandIdempotent(u: real)
    ensures PedalCommand(PedalCommand(u)) == PedalCommand(u)
  {
  }

  /** `np.pi` as the shortest decimal that denotes the same double. */
  const Pi: real := 3.141592653589793

  /** Steering factor: a maximum wheel angle of 70 degrees maps to 1. */
  const ConvRadToSteer: real := 180.0 / 70.0 / Pi

  /** Radians to the normalised steering command, clamped into [-1, 1]. */
  function SteerCommand(rad: real): (r: real)
    ensures -1.0 <= r <= 1.0
    ensures -1.0 <= ConvRadToSteer * rad <= 1.0 ==> r == ConvRadToSteer * rad
    ensures ConvRadToSteer * rad < -1.0 ==> r == -1.0
    ensures 1.0 < ConvRadToSteer * rad ==> r == 1.0
  {
    Clamp(ConvRadToSteer * rad, -1.0, 1.0)
  }

  /** A steering angle to the left gives a command to the left, and so on:
      the conversion factor is positive and the clamp keeps the sign. */
  lemma SteerCommandKeepsSign(rad: real)
    ensures rad > 0.0 ==> SteerCommand(rad) > 0.0
    ensures rad < 0.0 ==> SteerCommand(rad) < 0.0
    ensures rad == 0.0 ==> SteerCommand(rad) == 0.0
  {
  }

  /** A larger steering angle never gives a smaller command. */
  lemma SteerCommandMonotone(rad1: real, rad2: real)
    requires rad1 <= rad2
    ensures SteerCommand(rad1) <= SteerCommand(rad2)
  {
  }

  // ---------------------------------------------------------------------
  // Desired-speed selector

  /** Squared Euclidean distance from (x, y) to a waypoint. */
  function SqDist(w: Waypoint, x: real, y: real): (d: real)
    ensures d >= 0.0
  {
    (w.x - x) * (w.x - x) + (w.y - y) * (w.y - y)
  }

  /** Index k is the first waypoint among the first n that is closest to
      (x, y): no waypoint is closer, and every earlier one is farther. */
  ghost predicate NearestAmong(path: seq<Waypoint>, x: real, y: real, n: nat, k: nat)
  {
    && k < n <= |path|
    && (forall j :: 0 <= j < n ==> SqDist(path[k], x, y) <= SqDist(path[j], x, y))
    && (forall j :: 0 <= j < k ==> SqDist(path[k], x, y) < SqDist(path[j], x, y))
  }

  ghost predicate IsNearest(path: seq<Waypoint>, x: real, y: real, k: nat)
  {
    NearestAmong(path, x, y, |path|, k)
  }

  /** At most one index is the first nearest waypoint. */
  lemma NearestIsUnique(path: seq<Waypoint>, x: real, y: real, n: nat, k1: nat, k2: nat)
    requires NearestAmong(path, x, y, n, k1) && NearestAmong(path, x, y, n, k2)
    ensures k1 == k2
  {
    // mention both distances so that each index's quantifiers speak of the other
    var d1, d2 := SqDist(path[k1], x, y), SqDist(path[k2], x, y);
    assert d1 <= d2 && d2 <= d1;
  }

  /** The first nearest waypoint among the first n, as a left-to-right fold
      with a strict comparison (ties keep the earlier index). */
  function NearestInPrefix(path: seq<Waypoint>, x: real, y: real, n: nat): (k: nat)
    requires 0 < n <= |path|
    ensures NearestAmong(path, x, y, n, k)
    decreases n
  {
    if n == 1 then 0
    else
      var k := NearestInPrefix(path, x, y, n - 1);
      if SqDist(path[n - 1], x, y) < SqDist(path[k], x, y) then n - 1 else k
  }

  /** The index of the first waypoint nearest to (x, y). */
  function NearestIndex(path: seq<Waypoint>, x: real, y: real): (k: nat)
    requires |path| > 0
    ensures k < |path| && IsNearest(path, x, y, k)
  {
    NearestInPrefix(path, x, y, |path|)
  }

  /** The scan of the desired-speed selector: a linear argmin over the path
      starting from `min_idx = 0` and `min_dist = infinity`. An empty path
      leaves `min_idx` at 0. */
  method NearestWaypoint(path: seq<Waypoint>, x: real, y: real) returns (minIdx: nat)
    ensures |path| == 0 ==> minIdx == 0
    ensures |path| > 0 ==> IsNearest(path, x, y, minIdx) && minIdx == NearestIndex(path, x, y)
  {
    minIdx := 0;
    var minDist := Infinity;
    for i := 0 to |path|
      invariant i == 0 ==> minIdx == 0 && minDist == Infinity
      invariant i > 0 ==> NearestAmong(path, x, y, i, minIdx)
      invariant i > 0 ==> minDist == Finite(SqDist(path[minIdx], x, y))
    {
      var dist := SqDist(path[i], x, y);
      if Below(dist, minDist) {
        minDist := Finite(dist);
        minIdx := i;
      }
    }
    if |path| > 0 {
      NearestIsUnique(path, x, y, |path|, minIdx, NearestIndex(path, x, y));
    }
  }

  /** The speed target read after the scan: the nearest waypoint's speed when
      it is not the last one, otherwise `waypoints[-1]`'s, which fails on an
      empty path. Both branches read the same waypoint. */
  function SpeedTarget(path: seq<Waypoint>, minIdx: nat): (r: Option<real>)
    requires minIdx < |path| || minIdx == 0
    ensures r.Some? <==> |path| > 0
    ensures minIdx < |path| ==> r == Some(path[minIdx].speed)
  {
    if minIdx < |path| - 1 then Some(path[minIdx].speed)
    else if |path| == 0 then None
    else Some(path[|path| - 1].speed)
  }

  // ---------------------------------------------------------------------
  // Longitudinal controller

  const Kp: real := 1.0
  const Ki: real := 1.0
  const Kd: real := 0.01

  /** The five values the controller carries from one tick to the next. */
  datatype PreviousValues = PreviousValues(
    v: real, t: real, velocityErr: real, integralErr: real, throttle: real)

  const InitialPrevious: PreviousValues := PreviousValues(0.0, 0.0, 0.0, 0.0, 0.0)

  /** What one active tick of the PID computes. */
  datatype PidOutput = PidOutput(
    error: real, integral: real, derivative: real, acceleration: real, throttle: real)

  /** One PID step. The derivative is divided by the constant 2, not by the
      elapsed time; the integral is unbounded; the throttle is the positive
      part of the desired acceleration. */
  function Pid(prev: PreviousValues, vDesired: real, v: real, t: real): (o: PidOutput)
    ensures o.error == vDesired - v
    ensures o.integral == prev.integralErr + o.error * (t - prev.t)
    ensures o.derivative == (o.error - prev.velocityErr) / 2.0
    ensures o.acceleration == Kp * o.error + Ki * o.integral + Kd * o.derivative
    ensures o.throttle >= 0.0
    ensures o.throttle > 0.0 <==> o.acceleration > 0.0
    ensures o.acceleration > 0.0 ==> o.throttle == o.acceleration
  {
    var error := vDesired - v;
    var integral := prev.integralErr + error * (t - prev.t);
    var derivative := (error - prev.velocityErr) / 2.0;
    var acceleration := Kp * error + Ki * integral + Kd * derivative;
    PidOutput(error, integral, derivative, acceleration,
              if acceleration > 0.0 then acceleration else 0.0)
  }

  /** Feedback of one active tick: desired speed, speed and time stamp. */
  datatype Sample = Sample(vDesired: real, v: real, t: real)

  /** The values stored at the end of an active tick. */
  function ArmedStep(prev: PreviousValues, s: Sample): (next: PreviousValues)
    ensures next.v == s.v && next.t == s.t
    ensures next.velocityErr == s.vDesired - s.v
    ensures next.integralErr == prev.integralErr + next.velocityErr * (s.t - prev.t)
    ensures next.throttle == Pid(prev, s.vDesired, s.v, s.t).throttle
  {
    var o := Pid(prev, s.vDesired, s.v, s.t);
    PreviousValues(s.v, s.t, o.error, o.integral, o.throttle)
  }

  /** The carried values after a run of consecutive active ticks. */
  function RunArmed(prev: PreviousValues, samples: seq<Sample>): (last: PreviousValues)
    ensures samples == [] ==> last == prev
    ensures samples != [] ==> last.t == samples[|samples| - 1].t
    ensures samples != [] ==> last.v == samples[|samples| - 1].v
    ensures samples != [] ==> last.velocityErr == samples[|samples| - 1].vDesired - samples[|samples| - 1].v
    decreases |samples|
  {
    if samples == [] then prev
    else RunArmed(ArmedStep(prev, samples[0]), samples[1..])
  }

  /** Sum of velocity error times elapsed time, the time of each sample
      measured from the one before it (the first from t0). */
  function ErrorArea(t0: real, samples: seq<Sample>): real
    decreases |samples|
  {
    if samples == [] then 0.0
    else (samples[0].vDesired - samples[0].v) * (samples[0].t - t0)
         + ErrorArea(samples[0].t, samples[1..])
  }

  /** The time stamp of the last sample, or t0 when there is none. */
  function EndTime(t0: real, samples: seq<Sample>): real
  {
    if samples == [] then t0 else samples[|samples| - 1].t
  }

  /** The integral term is a running sum with no decay and no windup guard:
      after any run of active ticks it is the starting integral plus the
      error accumulated over each tick's elapsed time. */
  lemma {:induction false} IntegralIsErrorArea(prev: PreviousValues, samples: seq<Sample>)
    ensures RunArmed(prev, samples).integralErr == prev.integralErr + ErrorArea(prev.t, samples)
    decreases |samples|
  {
    if samples != [] {
      var next := ArmedStep(prev, samples[0]);
      var area := (samples[0].vDesired - samples[0].v) * (samples[0].t - prev.t);
      assert next.integralErr == prev.integralErr + area;
      assert ErrorArea(prev.t, samples) == area + ErrorArea(next.t, samples[1..]);
      IntegralIsErrorArea(next, samples[1..]);
      assert RunArmed(prev, samples).integralErr == next.integralErr + ErrorArea(next.t, samples[1..]);
    }
  }

  /** Under a constant velocity error e the accumulated area is e times the
      whole elapsed time, whatever the individual steps. */
  lemma {:induction false} ConstantErrorArea(t0: real, samples: seq<Sample>, e: real)
    requires forall i :: 0 <= i < |samples| ==> samples[i].vDesired - samples[i].v == e
    ensures ErrorArea(t0, samples) == e * (EndTime(t0, samples) - t0)
    decreases |samples|
  {
    if samples != [] {
      var t1 := samples[0].t;
      ConstantErrorArea(t1, samples[1..], e);
      assert EndTime(t1, samples[1..]) == EndTime(t0, samples);
      calc {
        ErrorArea(t0, samples);
        e * (t1 - t0) + e * (EndTime(t0, samples) - t1);
        { assert e * (t1 - t0) + e * (EndTime(t0, samples) - t1) == e * (t1 - t0 + (EndTime(t0, samples) - t1)); }
        e * (EndTime(t0, samples) - t0);
      }
    }
  }

  /** Linear accumulation: with a constant error e, the integral after a run
      of active ticks grows by e times the elapsed time. */
  lemma ConstantErrorIntegral(prev: PreviousValues, samples: seq<Sample>, e: real)
    requires forall i :: 0 <= i < |samples| ==> samples[i].vDesired - samples[i].v == e
    ensures RunArmed(prev, samples).integralErr == prev.integralErr + e * (EndTime(prev.t, samples) - prev.t)
  {
    IntegralIsErrorArea(prev, samples);
    ConstantErrorArea(prev.t, samples, e);
  }

  // ---------------------------------------------------------------------
  // Lateral controller: choice of the pure-pursuit target

  /** Squared distance from the rear axle to a waypoint as the controller
      measures it: rear-axle x but current (not rear-axle) y. */
  function RearSqDist(w: Waypoint, xRear: real, y: real): (d: real)
    ensures d >= 0.0
  {
    (w.x - xRear) * (w.x - xRear) + (w.y - y) * (w.y - y)
  }

  /** The candidate after the middle waypoint exists only on a path of at
      least three waypoints. */
  lemma CandidateInRange(n: nat)
    ensures n / 2 + 1 < n <==> n >= 3
  {
  }

  /** The pursuit target: the waypoint after the middle one, unless it is no
      farther from the rear axle than the middle one is from the vehicle, in
      which case the first waypoint. */
  function PursuitTarget(path: seq<Waypoint>, x: real, y: real, xRear: real): (k: nat)
    requires |path| >= 3
    ensures k < |path|
    ensures k == 0 || k == |path| / 2 + 1
    ensures k == 0 <==> RearSqDist(path[|path| / 2 + 1], xRear, y) <= SqDist(path[|path| / 2], x, y)
  {
    var middle := |path| / 2;
    var lookaheadSq := SqDist(path[middle], x, y);
    var distanceSq := RearSqDist(path[middle + 1], xRear, y);
    if distanceSq <= lookaheadSq then 0 else middle + 1
  }

  // ---------------------------------------------------------------------
  // Arming

  /** The arming flag after a sequence of feedback updates with the given
      frame numbers: a nonzero frame arms it, nothing disarms it. */
  function ArmedAfter(armed: bool, frames: seq<int>): bool
    decreases |frames|
  {
    if frames == [] then armed else ArmedAfter(armed || frames[0] != 0, frames[1..])
  }

  /** The loop is armed exactly when it was armed already or some frame so
      far was nonzero. */
  lemma {:induction false} ArmedIffSomeNonzeroFrame(armed: bool, frames: seq<int>)
    ensures ArmedAfter(armed, frames) <==> armed || exists i :: 0 <= i < |frames| && frames[i] != 0
    decreases |frames|
  {
    if frames != [] {
      ArmedIffSomeNonzeroFrame(armed || frames[0] != 0, frames[1..]);
      if exists i :: 0 <= i < |frames[1..]| && frames[1..][i] != 0 {
        var i :| 0 <= i < |frames[1..]| && frames[1..][i] != 0;
        assert frames[i + 1] != 0;
      }
      if exists i :: 0 <= i < |frames| && frames[i] != 0 {
        var i :| 0 <= i < |frames| && frames[i] != 0;
        if i > 0 {
          assert frames[1..][i - 1] != 0;
        }
      }
    }
  }
}
