# Controller2D: a verified model of the CARLA waypoint-following controller

`Controller2D` (controller2dblank.py) runs once per simulation tick. The
driver pushes the vehicle's pose, speed, time stamp and frame number. The
controller picks a desired speed from the nearest waypoint of the path. It
runs a PID speed controller and a pure-pursuit steering controller, then
clamps and stores throttle, steer and brake for the driver to read back.
Five values (`v_previous`, `t_previous`, `velocity_err_previous`,
`integral_err_previous`, `throttle_previous`) are carried from one tick to
the next.

The model has two modules:

- `ControlLaws` (control_laws.dfy) holds the pure arithmetic: the output
  clamps, the nearest-waypoint rule and its loop, the speed-target rule,
  one PID step with its bookkeeping, the choice of the pure-pursuit target
  and the arming flag. It also holds lemmas over runs of several ticks.
- `Controller` (controller.dfy) holds the class `Controller2D`. Its fields
  are the object's fields and its methods update them in place. Each method
  has a field-level `modifies` frame and an `ensures` that states the new
  state. `Valid()` is the object invariant (every stored command is in its
  range) and every method keeps it.

Numbers are `real`. The controller compares distances only with each other.
The square root is monotone on non-negative numbers, so the model compares
squared distances and every comparison comes out the same.

Behaviour taken from the code:

- `update_desired_speed` runs on every tick, armed or not.
- On an empty path it fails at `waypoints[-1]` before writing anything
  (`Failed(EmptyPath)`).
- On an unarmed tick the `if self._start_control_loop:` block is skipped.
  Lines 211-212 store the speed and the time stamp, then line 213 reads the
  unbound `error_velocity` and the tick raises (`Failed(ErrorVelocityUnbound)`).
  Lines 211-215 sit outside the `if`, so lines 211-212 run on unarmed ticks
  too: an unarmed tick does write `v_previous` and `t_previous`.
- On an armed tick, a path of one or two waypoints fails at line 190,
  `waypoints[len // 2 + 1]` (`Failed(PathTooShort)`). The PID values have
  been computed by then, but neither they nor any command is stored; the
  desired speed has already been refreshed (line 88).
- The derivative term is divided by the constant 2, not by the elapsed time.
- The target distance at line 192 mixes the rear-axle x with the current y.

## Model

| member | source | states |
|---|---|---|
| `Controller.Controller2D.constructor` | controller2dblank.py:11-27 | a new controller stores the path, zero feedback, an unarmed loop, commands (0, 0, 0) and all five carried values at 0.0; the invariant holds |
| `Controller.Controller2D.UpdateValues` | controller2dblank.py:29-37 | overwrites exactly x, y, yaw, speed, time stamp and frame; the loop is armed afterwards iff it was armed before or the frame is nonzero, so it is never disarmed |
| `ControlLaws.ArmedIffSomeNonzeroFrame` | controller2dblank.py:36-37 | after any sequence of feedback updates, the loop is armed iff it started armed or some frame in the sequence was nonzero |
| `ControlLaws.NearestWaypoint` | controller2dblank.py:40-49 | the scan (starting from index 0 and distance infinity) ends on a waypoint that no other waypoint is closer than, and every earlier waypoint is strictly farther (ties keep the lowest index); on an empty path the index stays 0 |
| `ControlLaws.NearestInPrefix` | controller2dblank.py:43-49 | the left-to-right fold with a strict `<` gives the first nearest waypoint among the first n |
| `ControlLaws.NearestIndex` | controller2dblank.py:43-49 | on a non-empty path, the index of the first nearest waypoint exists and satisfies the argmin property |
| `ControlLaws.NearestIsUnique` | controller2dblank.py:47-49 | at most one index is the first nearest waypoint, so the scan's result is determined |
| `ControlLaws.SpeedTarget` | controller2dblank.py:50-53 | the speed is defined iff the path is non-empty, and both branches give the speed of the waypoint at the scanned index |
| `Controller.Controller2D.UpdateDesiredSpeed` | controller2dblank.py:39-54 | on a non-empty path the desired speed is the target speed of the first nearest waypoint; on an empty path it fails and the desired speed is unchanged |
| `Controller.Controller2D.UpdateWaypoints` | controller2dblank.py:56-57 | replaces the path and nothing else |
| `Controller.Controller2D.GetCommands` | controller2dblank.py:59-60 | returns the stored (throttle, steer, brake) and changes nothing; each value is within its range |
| `ControlLaws.Clamp` | controller2dblank.py:64 | the result is in [lo, hi], an in-range input is returned unchanged, and inputs below or above saturate to the bound |
| `ControlLaws.PedalCommand` | controller2dblank.py:62-65 | throttle and brake commands lie in [0, 1], in-range inputs pass unchanged, and out-of-range inputs saturate |
| `ControlLaws.PedalCommandIdempotent` | controller2dblank.py:64 | clamping an already clamped throttle or brake changes nothing |
| `ControlLaws.SteerCommand` | controller2dblank.py:67-73 | the steering command lies in [-1, 1], if the scaled angle k * rad is in [-1, 1] it is stored exactly, and a scaled angle below -1 or above 1 saturates to -1 or 1 |
| `ControlLaws.SteerCommandKeepsSign` | controller2dblank.py:67-73 | a left (positive) angle gives a positive command, a right angle a negative one, zero gives zero |
| `ControlLaws.SteerCommandMonotone` | controller2dblank.py:69-72 | a larger steering angle never gives a smaller command |
| `Controller.Controller2D.SetThrottle` | controller2dblank.py:62-65 | stores the clamped throttle, changes only that field, keeps the invariant |
| `Controller.Controller2D.SetSteer` | controller2dblank.py:67-73 | stores the converted and clamped steering, changes only that field, keeps the invariant |
| `Controller.Controller2D.SetBrake` | controller2dblank.py:75-78 | stores the clamped brake, changes only that field, keeps the invariant |
| `ControlLaws.Pid` | controller2dblank.py:151-174 | e is desired minus current speed; the integral I is the previous integral plus e times the elapsed time; the derivative D is the change in e divided by the constant 2 (not by the elapsed time); the acceleration is Kp*e + Ki*I + Kd*D; the throttle is never negative, is positive iff the acceleration is, and then equals it |
| `ControlLaws.ArmedStep` | controller2dblank.py:158-166 | after an active tick the carried time and speed are the current ones, the carried error is e, the carried integral is the previous one plus e times the elapsed time, and the carried throttle is the unclamped PID throttle |
| `ControlLaws.RunArmed` | controller2dblank.py:211-215 | after a run of active ticks the carried speed, time stamp and velocity error are those of the last tick |
| `ControlLaws.IntegralIsErrorArea` | controller2dblank.py:163 | over any run of active ticks the integral is the starting integral plus the sum of each tick's error times its elapsed time (no decay, no windup guard) |
| `ControlLaws.ConstantErrorArea` | controller2dblank.py:158-163 | under a constant error e the accumulated sum telescopes to e times the whole elapsed time |
| `ControlLaws.ConstantErrorIntegral` | controller2dblank.py:158-163 | with a constant error e, the integral after any run of active ticks is the starting integral plus e times the total elapsed time (two ticks of length d give 2ed) |
| `ControlLaws.CandidateInRange` | controller2dblank.py:189-190 | the waypoint after the middle one exists iff the path has at least three waypoints |
| `ControlLaws.PursuitTarget` | controller2dblank.py:188-195 | the target is the waypoint after the middle one, or the first waypoint exactly when the former (measured from rear-axle x and current y) is no farther than the middle waypoint is from the vehicle |
| `Controller.Controller2D.UpdateControls` | controller2dblank.py:80-215 | one tick: the desired speed is always refreshed; an empty path fails with nothing else changed; an unarmed tick leaves the commands alone, stores speed and time and fails; an armed tick on a 1- or 2-waypoint path fails with no command and no carried value stored (the desired speed is already refreshed); the rear-axle x is within 1 of the current x, as x - cos(yaw) always is; otherwise throttle = clamped PID throttle, steer = clamped conversion of the steering angle toward the chosen target, brake = 0, and the carried values are those of ArmedStep; the command invariant is kept |
| `Controller.WarmUpTick` | controller2dblank.py:80-103 | a fresh controller fed frame 0 keeps commands (0, 0, 0) and its tick fails at the bookkeeping (or at the speed selector on an empty path) |

## Left out

- Trigonometry and square roots of pure pursuit (`np.cos`, `np.sin`, `np.arctan2`, `np.sqrt`, lines 185-201): `UpdateControls` takes the rear-axle x coordinate and the steering law (target waypoint to radians) as parameters. The rear-axle y, the heading error `alpha` and the arctan2 formula are not modelled.
- IEEE floating point: rounding, NaN and infinity handling in `np.fmax`/`np.fmin`. Everything is `real`, and `min_dist`'s starting infinity is a separate datatype value.
- `Controller.Controller2D.UpdateControls`: `np.linalg.norm` and `np.sqrt` distances are replaced by squared distances; the choice of nearest waypoint and of pursuit target is the same.
- `ControlLaws.SteerCommand`: pi is the decimal 3.141592653589793, not the double `np.pi`; only the positivity of the factor is used.
- `cutils.CUtils` and `create_var` (lines 12, 96-100) are not part of this model. The five carried values are a record field that starts at 0.0, and `create_var` is assumed not to reset a value that exists already. Aliasing of the `vars` object is not modelled; only the controller uses it.
- `Controller.Controller2D.UpdateWaypoints`: the source keeps the caller's waypoint list by reference (lines 24, 57), so the driver's later in-place edits to that list would show on the next tick. The model stores a `seq` value; such aliasing is not modelled.
- The fields `_pi` and `_2pi` (lines 26-27) are never read and are left out.
- The simulator driver that calls `update_values`, `update_controls` and `get_commands`, plotting and logging are outside the class.
