/** The waypoint-following controller object: feedback fields written by the
    driver, the path, the three stored commands and the values carried from
    one tick to the next, with the methods that update them in place. */
module Controller {
  import opened ControlLaws

  /** Why a tick stops early. */
  datatype TickError =
    | EmptyPath             // `waypoints[-1]` of the speed selector on an empty path
    | PathTooShort          // `waypoints[len // 2 + 1]` of pure pursuit on fewer than 3 waypoints
    | ErrorVelocityUnbound  // the bookkeeping reads the velocity error on an unarmed tick

  datatype TickOutcome = Completed | Failed(error: TickError)

  /** The stored commands, in the order the accessor returns them. */
  datatype CommandOutput = CommandOutput(throttle: real, steer: real, brake: real)

  class Controller2D {
    // feedback from the driver
    var currentX: real
    var currentY: real
    var currentYaw: real
    var currentSpeed: real
    var currentTimestamp: real
    var currentFrame: int
    var desiredSpeed: real
    var startControlLoop: bool
    // stored commands
    var setThrottle: real
    var setSteer: real
    var setBrake: real
    var waypoints: seq<Waypoint>
    // values carried across ticks
    var vars: PreviousValues

    /** The object invariant: every stored command is in its range. */
    ghost predicate Valid()
      reads this
    {
      && 0.0 <= setThrottle <= 1.0
      && -1.0 <= setSteer <= 1.0
      && 0.0 <= setBrake <= 1.0
    }

    ghost function Commands(): CommandOutput
      reads this
    {
      CommandOutput(setThrottle, setSteer, setBrake)
    }

    constructor (waypoints: seq<Waypoint>)
      ensures Valid()
      ensures this.waypoints == waypoints
      ensures currentX == 0.0 && currentY == 0.0 && currentYaw == 0.0 && currentSpeed == 0.0
      ensures currentTimestamp == 0.0 && currentFrame == 0 && desiredSpeed == 0.0
      ensures !startControlLoop
      ensures Commands() == CommandOutput(0.0, 0.0, 0.0)
      ensures vars == InitialPrevious
    {
      currentX, currentY, currentYaw, currentSpeed := 0.0, 0.0, 0.0, 0.0;
      desiredSpeed := 0.0;
      currentFrame := 0;
      currentTimestamp := 0.0;
      startControlLoop := false;
      setThrottle, setBrake, setSteer := 0.0, 0.0, 0.0;
      this.waypoints := waypoints;
      vars := InitialPrevious;
    }

    /** Overwrite the feedback; the first nonzero frame arms the control
        loop and nothing disarms it. */
    method UpdateValues(x: real, y: real, yaw: real, speed: real, timestamp: real, frame: int)
      modifies this`currentX, this`currentY, this`currentYaw, this`currentSpeed,
               this`currentTimestamp, this`currentFrame, this`startControlLoop
      ensures currentX == x && currentY == y && currentYaw == yaw && currentSpeed == speed
      ensures currentTimestamp == timestamp && currentFrame == frame
      ensures startControlLoop == ArmedAfter(old(startControlLoop), [frame])
      ensures old(startControlLoop) ==> startControlLoop
      ensures startControlLoop <==> old(startControlLoop) || frame != 0
    {
      currentX := x;
      currentY := y;
      currentYaw := yaw;
      currentSpeed := speed;
      currentTimestamp := timestamp;
      currentFrame := frame;
      if currentFrame != 0 {
        startControlLoop := true;
      }
    }

    /** Set the desired speed to the target speed of the first waypoint
        nearest to the current position; on an empty path fail before
        writing anything. */
    method UpdateDesiredSpeed() returns (ok: bool)
      modifies this`desiredSpeed
      ensures ok <==> |waypoints| > 0
      ensures ok ==> desiredSpeed == waypoints[NearestIndex(waypoints, currentX, currentY)].speed
      ensures !ok ==> desiredSpeed == old(desiredSpeed)
    {
      var minIdx := NearestWaypoint(waypoints, currentX, currentY);
      var target := SpeedTarget(waypoints, minIdx);
      if target.None? {
        return false;
      }
      desiredSpeed := target.value;
      ok := true;
    }

    method UpdateWaypoints(newWaypoints: seq<Waypoint>)
      modifies this`waypoints
      ensures waypoints == newWaypoints
    {
      waypoints := newWaypoints;
    }

    /** The stored commands, each within its range. */
    method GetCommands() returns (throttle: real, steer: real, brake: real)
      requires Valid()
      ensures CommandOutput(throttle, steer, brake) == Commands()
      ensures 0.0 <= throttle <= 1.0 && -1.0 <= steer <= 1.0 && 0.0 <= brake <= 1.0
    {
      return setThrottle, setSteer, setBrake;
    }

    method SetThrottle(inputThrottle: real)
      requires Valid()
      modifies this`setThrottle
      ensures Valid()
      ensures setThrottle == PedalCommand(inputThrottle)
    {
      setThrottle := PedalCommand(inputThrottle);
    }

    method SetSteer(inputSteerInRad: real)
      requires Valid()
      modifies this`setSteer
      ensures Valid()
      ensures setSteer == SteerCommand(inputSteerInRad)
    {
      setSteer := SteerCommand(inputSteerInRad);
    }

    method SetBrake(inputBrake: real)
      requires Valid()
      modifies this`setBrake
      ensures Valid()
      ensures setBrake == PedalCommand(inputBrake)
    {
      setBrake := PedalCommand(inputBrake);
    }

    /** One tick of the controller. The trigonometry of pure pursuit is
        supplied by the caller: `xRear` is the rear-axle x coordinate
        (x - L cos(yaw) / 2) and `steerLaw` gives the pure-pursuit
        steering angle in radians for a chosen target waypoint. */
    method UpdateControls(xRear: real, steerLaw: Waypoint -> real) returns (outcome: TickOutcome)
      requires Valid()
      // x - L cos(yaw) / 2 with L = 2 lies within 1 of x
      requires currentX - 1.0 <= xRear <= currentX + 1.0
      modifies this`desiredSpeed, this`setThrottle, this`setSteer, this`setBrake, this`vars
      ensures Valid()
      // the speed selector runs on every tick and fails on an empty path
      ensures |waypoints| == 0 ==>
        && outcome == Failed(EmptyPath)
        && desiredSpeed == old(desiredSpeed) && vars == old(vars)
        && Commands() == old(Commands())
      ensures |waypoints| > 0 ==>
        desiredSpeed == waypoints[NearestIndex(waypoints, currentX, currentY)].speed
      // unarmed: commands untouched, speed and time stored, then the tick fails
      ensures |waypoints| > 0 && !startControlLoop ==>
        && outcome == Failed(ErrorVelocityUnbound)
        && Commands() == old(Commands())
        && vars == old(vars).(v := currentSpeed, t := currentTimestamp)
      // armed on a path too short for pure pursuit: nothing stored
      ensures 0 < |waypoints| < 3 && startControlLoop ==>
        && outcome == Failed(PathTooShort)
        && Commands() == old(Commands()) && vars == old(vars)
      // armed on a long enough path: commands set and previous values carried
      ensures |waypoints| >= 3 && startControlLoop ==>
        var pid := Pid(old(vars), desiredSpeed, currentSpeed, currentTimestamp);
        var target := waypoints[PursuitTarget(waypoints, currentX, currentY, xRear)];
        && outcome == Completed
        && setThrottle == PedalCommand(pid.throttle)
        && setSteer == SteerCommand(steerLaw(target))
        && setBrake == 0.0
        && vars == ArmedStep(old(vars), Sample(desiredSpeed, currentSpeed, currentTimestamp))
    {
      var x, y, v, t := currentX, currentY, currentSpeed, currentTimestamp;
      var ok := UpdateDesiredSpeed();
      if !ok {
        return Failed(EmptyPath);
      }
      var vDesired := desiredSpeed;
      if startControlLoop {
        var pid := Pid(vars, vDesired, v, t);
        var brakeOutput := 0.0;
        var n := |waypoints|;
        CandidateInRange(n);
        if n / 2 + 1 >= n {
          return Failed(PathTooShort);
        }
        var target := waypoints[PursuitTarget(waypoints, x, y, xRear)];
        var steerOutput := steerLaw(target);
        SetThrottle(pid.throttle);
        SetSteer(steerOutput);
        SetBrake(brakeOutput);
        vars := PreviousValues(v, t, pid.error, pid.integral, pid.throttle);
        return Completed;
      }
      vars := vars.(v := v, t := t);
      return Failed(ErrorVelocityUnbound);
    }
  }

  /** The warm-up tick: a fresh controller fed frame 0 leaves its commands at
      zero, and on a non-empty path the tick fails at the bookkeeping. */
  method WarmUpTick(path: seq<Waypoint>, x: real, y: real, yaw: real, speed: real,
                    timestamp: real, xRear: real, steerLaw: Waypoint -> real)
    returns (commands: CommandOutput, outcome: TickOutcome)
    requires x - 1.0 <= xRear <= x + 1.0
    ensures commands == CommandOutput(0.0, 0.0, 0.0)
    ensures outcome == if |path| == 0 then Failed(EmptyPath) else Failed(ErrorVelocityUnbound)
  {
    var c := new Controller2D(path);
    c.UpdateValues(x, y, yaw, speed, timestamp, 0);
    outcome := c.UpdateControls(xRear, steerLaw);
    var throttle, steer, brake := c.GetCommands();
    commands := CommandOutput(throttle, steer, brake);
  }
}
