/**
 * pi/bot.py: the script that measures instead of trusting the clock. A turn
 * integrates noise-gated gyro samples and commits the measured rotation; a
 * straight step integrates the gyro too and accumulates the displacement
 * along the instantaneous heading, then hands both to `update_map` as an
 * explicit `(dx, dy)`.
 *
 * The clock is an input: every pass of a sampling loop carries the reading
 * its loop-head test saw (seconds since the loop started) and the `dt` the
 * pass measured since the previous one. A loop runs until the first pass
 * whose loop-head reading is no longer below its duration.
 */
module PiBot {
  import opened Wrappers
  import opened Geometry
  import opened Motors
  import opened Sweep

  /** `TURN_SPEED`: the duty of both wheels during a pivot. */
  const TurnSpeed: real := 0.42

  /** `TIME_LEFT_90` and `TIME_RIGHT_90`. */
  const TimeLeft90: real := 0.94
  const TimeRight90: real := 0.90

  /** `LEFT_MOTOR_BIAS`, `RIGHT_MOTOR_BIAS`, the turn times and the pivot drives of `turn_degrees`. */
  const Profile := Calibration(0.96, 1.00, TimeLeft90, TimeRight90,
    Command(-TurnSpeed, TurnSpeed), Command(TurnSpeed, -TurnSpeed))

  /** Gyro rates (deg/s) of smaller magnitude are taken as sensor jitter. */
  const NoiseGate: real := 0.2

  /** One attempt to read the gyro's z rate: a value, or the `OSError` the driver raised. */
  datatype GyroRead = Reading(z: real) | ReadFailed

  /**
   * One pass of a sampling loop: `time.time() - start` as the loop-head test
   * read it, the `dt` measured inside the pass, and the gyro read.
   */
  datatype Sample = Sample(sinceStart: real, dt: real, gyro: GyroRead)

  /** The loop-head test lets this pass run. */
  predicate Runs(s: Sample, duration: real) {
    s.sinceStart < duration
  }

  /** `get_gyro_z()`: the z rate, or 0 when the read raised `OSError`. */
  function GetGyroZ(r: GyroRead): (z: real)
    ensures r.Reading? ==> z == r.z
    ensures r.ReadFailed? ==> z == 0.0
  {
    match r
    case Reading(z) => z
    case ReadFailed => 0.0
  }

  /** The noise gate `if abs(gyro_z) < 0.2: gyro_z = 0`. */
  function Gated(z: real): (g: real)
    ensures g == 0.0 <==> Abs(z) < NoiseGate
    ensures g != 0.0 ==> g == z
  {
    if Abs(z) < NoiseGate then 0.0 else z
  }

  /** A sample the gate turns into no rotation: a failed read or a rate below the gate. */
  predicate Quiet(s: Sample) {
    s.gyro.ReadFailed? || Abs(s.gyro.z) < NoiseGate
  }

  /** The rotation one sample contributes: gated rate times its measured `dt`. */
  function Increment(s: Sample): real {
    Gated(GetGyroZ(s.gyro)) * s.dt
  }

  /**
   * `total_rotated` of `turn_degrees`: the passes the loop-head test lets
   * through, each adding its gated rate times its `dt`.
   */
  function TurnRotation(samples: seq<Sample>, duration: real): real
    decreases |samples|
  {
    if samples == [] || !Runs(samples[0], duration) then 0.0
    else Increment(samples[0]) + TurnRotation(samples[1..], duration)
  }

  /** The sum of the `dt`s measured by the passes the loop runs. */
  function ElapsedTime(samples: seq<Sample>, duration: real): real
    decreases |samples|
  {
    if samples == [] || !Runs(samples[0], duration) then 0.0
    else samples[0].dt + ElapsedTime(samples[1..], duration)
  }

  /**
   * The gyro loop of `turn_degrees`: while the clock read at the loop head
   * is below `duration`, gate the rate and accumulate rate times `dt`.
   */
  method IntegrateRotation(samples: seq<Sample>, duration: real) returns (totalRotated: real)
    ensures totalRotated == TurnRotation(samples, duration)
  {
    totalRotated := 0.0;
    var i := 0;
    while i < |samples| && samples[i].sinceStart < duration
      invariant 0 <= i <= |samples|
      invariant totalRotated + TurnRotation(samples[i..], duration) == TurnRotation(samples, duration)
    {
      var dt := samples[i].dt;
      var gyroZ := GetGyroZ(samples[i].gyro);
      if Abs(gyroZ) < NoiseGate {
        gyroZ := 0.0;
      }
      assert samples[i..][1..] == samples[i + 1..];
      totalRotated := totalRotated + gyroZ * dt;
      i := i + 1;
    }
  }

  /**
   * The loop never reads past the first pass whose loop-head clock reading
   * is no longer below the duration: whatever follows it adds nothing.
   */
  lemma {:induction false} LaterPassesIgnored(samples: seq<Sample>, k: int, duration: real)
    requires 0 <= k < |samples| && !Runs(samples[k], duration)
    ensures TurnRotation(samples, duration) == TurnRotation(samples[..k], duration)
    decreases k
  {
    if k > 0 && Runs(samples[0], duration) {
      assert samples[..k][0] == samples[0];
      assert samples[..k][1..] == samples[1..][..k - 1];
      LaterPassesIgnored(samples[1..], k - 1, duration);
    }
  }

  /** Samples that are all quiet add up to no rotation at all, however long the turn. */
  lemma {:induction false} QuietTurnRotatesNothing(samples: seq<Sample>, duration: real)
    requires forall i :: 0 <= i < |samples| ==> Quiet(samples[i])
    ensures TurnRotation(samples, duration) == 0.0
    decreases |samples|
  {
    if samples != [] && Runs(samples[0], duration) {
      assert Quiet(samples[0]);
      QuietTurnRotatesNothing(samples[1..], duration);
    }
  }

  /** A failed gyro read counts as a zero rate: the pass runs and adds nothing. */
  lemma FailedReadAddsNothing(sinceStart: real, dt: real, rest: seq<Sample>, duration: real)
    requires sinceStart < duration
    ensures TurnRotation([Sample(sinceStart, dt, ReadFailed)] + rest, duration) == TurnRotation(rest, duration)
  {
    assert ([Sample(sinceStart, dt, ReadFailed)] + rest)[1..] == rest;
  }

  /** What the drift-tracking loop of a straight step accumulates: `step_rotation`, `step_dx`, `step_dy`. */
  datatype Drift = Drift(rotation: real, dx: real, dy: real)

  const NoDrift := Drift(0.0, 0.0, 0.0)

  /**
   * The straight step's loop from accumulator `acc` on: each sample adds its
   * gated rotation first, then `7.5 * dt` cm along the instantaneous heading
   * `(heading + step_rotation) % 360`.
   */
  function DriftFrom(samples: seq<Sample>, duration: real, heading: real, acc: Drift, trig: Trig): Drift
    decreases |samples|
  {
    if samples == [] || !Runs(samples[0], duration) then acc
    else DriftFrom(samples[1..], duration, heading, DriftStep(acc, samples[0], heading, trig), trig)
  }

  /** One sample of the drift loop: add the gated rotation, then `7.5 * dt` cm along `(heading + rotation) % 360`. */
  function DriftStep(acc: Drift, s: Sample, heading: real, trig: Trig): Drift {
    var rotation := acc.rotation + Increment(s);
    Straight(acc.(rotation := rotation), Mod360(heading + rotation), CruiseDistance(s.dt), trig)
  }

  /** The loop takes one more sample while time remains. */
  lemma DriftFromUnfold(samples: seq<Sample>, duration: real, heading: real, acc: Drift, trig: Trig)
    requires samples != [] && Runs(samples[0], duration)
    ensures DriftFrom(samples, duration, heading, acc, trig)
         == DriftFrom(samples[1..], duration, heading, DriftStep(acc, samples[0], heading, trig), trig)
  {
  }

  /** The same step, for the loop's `i`-th sample. */
  lemma DriftFromUnfoldAt(samples: seq<Sample>, i: int, duration: real, heading: real, acc: Drift, trig: Trig)
    requires 0 <= i < |samples| && Runs(samples[i], duration)
    ensures DriftFrom(samples[i..], duration, heading, acc, trig)
         == DriftFrom(samples[i + 1..], duration, heading, DriftStep(acc, samples[i], heading, trig), trig)
  {
    assert samples[i..][0] == samples[i] && samples[i..][1..] == samples[i + 1..];
    DriftFromUnfold(samples[i..], duration, heading, acc, trig);
  }

  /**
   * One pass of the drift-tracking loop on the sample just taken: gate the
   * rate, add `rotation_delta`, and move `dist_step` along the instantaneous
   * heading.
   */
  method SampleDrift(acc: Drift, s: Sample, heading: real, trig: Trig) returns (next: Drift)
    ensures next == DriftStep(acc, s, heading, trig)
  {
    var dt := s.dt;
    var gyroZ := GetGyroZ(s.gyro);
    if Abs(gyroZ) < NoiseGate {
      gyroZ := 0.0;
    }
    var rotationDelta := gyroZ * dt;
    assert rotationDelta == Increment(s);
    var stepRotation := acc.rotation + rotationDelta;
    var currentInstHeading := Mod360(heading + stepRotation);
    var distStep := SpeedCmS * 0.5 * dt;
    assert distStep == CruiseDistance(s.dt);
    next := Drift(stepRotation,
      acc.dx + distStep * Cos(trig, currentInstHeading),
      acc.dy + distStep * Sin(trig, currentInstHeading));
  }

  /** Moving `dist` cm along heading `h` without turning. */
  function Straight(acc: Drift, h: real, dist: real, trig: Trig): (r: Drift)
    ensures r.rotation == acc.rotation
  {
    Drift(acc.rotation, acc.dx + dist * Cos(trig, h), acc.dy + dist * Sin(trig, h))
  }

  /** Two straight moves along one heading make one move by the summed distance. */
  lemma StraightAdds(acc: Drift, h: real, d1: real, d2: real, trig: Trig)
    ensures Straight(Straight(acc, h, d1, trig), h, d2, trig) == Straight(acc, h, d1 + d2, trig)
  {
    var c, sn := Cos(trig, h), Sin(trig, h);
    assert d1 * c + d2 * c == (d1 + d2) * c;
    assert d1 * sn + d2 * sn == (d1 + d2) * sn;
  }

  /** A quiet sample adds no rotation and moves `7.5 * dt` cm along the heading reached so far. */
  lemma QuietDriftStep(acc: Drift, s: Sample, heading: real, trig: Trig)
    requires Quiet(s)
    ensures DriftStep(acc, s, heading, trig) == Straight(acc, Mod360(heading + acc.rotation), CruiseDistance(s.dt), trig)
  {
    assert Gated(GetGyroZ(s.gyro)) == 0.0;
    assert acc.rotation + Increment(s) == acc.rotation;
    assert acc.(rotation := acc.rotation + Increment(s)) == acc;
  }

  /**
   * The drift-tracking loop of `area_search`'s clear-path branch: for
   * `step_time` seconds, integrate the gated gyro and the displacement
   * along the instantaneous heading.
   */
  method TrackStraightStep(heading: real, samples: seq<Sample>, trig: Trig) returns (step: Drift)
    ensures step == DriftFrom(samples, StepTime, heading, NoDrift, trig)
  {
    var stepTime := StepTime;
    step := NoDrift;
    var i := 0;
    while i < |samples| && samples[i].sinceStart < stepTime
      invariant 0 <= i <= |samples|
      invariant DriftFrom(samples[i..], stepTime, heading, step, trig)
             == DriftFrom(samples, StepTime, heading, NoDrift, trig)
    {
      DriftFromUnfoldAt(samples, i, stepTime, heading, step, trig);
      step := SampleDrift(step, samples[i], heading, trig);
      i := i + 1;
    }
  }

  /**
   * With every sample quiet the step is a straight line: no rotation, and
   * the displacement is 7.5 cm/s times the `dt`s the loop measured, along the
   * heading the step started with.
   */
  lemma {:induction false} QuietStepIsStraight(samples: seq<Sample>, duration: real, heading: real, acc: Drift, trig: Trig)
    requires forall i :: 0 <= i < |samples| ==> Quiet(samples[i])
    ensures DriftFrom(samples, duration, heading, acc, trig)
         == Straight(acc, Mod360(heading + acc.rotation), CruiseDistance(ElapsedTime(samples, duration)), trig)
    decreases |samples|
  {
    var h := Mod360(heading + acc.rotation);
    if samples != [] && Runs(samples[0], duration) {
      var s := samples[0];
      assert Quiet(s);
      QuietDriftStep(acc, s, heading, trig);
      var next := Straight(acc, h, CruiseDistance(s.dt), trig);
      DriftFromUnfold(samples, duration, heading, acc, trig);
      assert forall i :: 0 <= i < |samples[1..]| ==> samples[1..][i] == samples[i + 1];
      QuietStepIsStraight(samples[1..], duration, heading, next, trig);
      var rest := ElapsedTime(samples[1..], duration);
      StraightAdds(acc, h, CruiseDistance(s.dt), CruiseDistance(rest), trig);
      assert CruiseDistance(s.dt) + CruiseDistance(rest) == CruiseDistance(ElapsedTime(samples, duration));
    } else {
      assert CruiseDistance(ElapsedTime(samples, duration)) == 0.0;
      assert Straight(acc, h, 0.0, trig) == acc;
    }
  }

  /**
   * `update_map(dist_moved, angle_change, dx, dy)`: turn, then translate by
   * `(dx, dy)` when both are given, otherwise move `distMoved` along the new
   * heading.
   */
  function UpdatedPose(p: Pose, distMoved: real, angleChange: real, dx: Option<real>, dy: Option<real>, trig: Trig): (q: Pose)
    ensures ValidPose(q) && q.heading == Mod360(p.heading + angleChange)
    ensures dx.Some? && dy.Some? ==> q.x == p.x + dx.value && q.y == p.y + dy.value
    ensures !(dx.Some? && dy.Some?) ==> q == Advance(p, distMoved, angleChange, trig)
  {
    var h := Mod360(p.heading + angleChange);
    if dx.Some? && dy.Some? then Pose(p.x + dx.value, p.y + dy.value, h)
    else Advance(p, distMoved, angleChange, trig)
  }

  /** A measured turn: rotate by what the gyro integrated over the calibrated duration, without moving. */
  function MeasuredTurn(p: Pose, targetDeg: real, samples: seq<Sample>, trig: Trig): Pose {
    Advance(p, 0.0, TurnRotation(samples, TurnDuration(Profile, targetDeg)), trig)
  }

  /**
   * One pass of the control loop: the distance read, then the gyro samples of
   * the straight step, or those of the first and of the second turn.
   */
  datatype Tick = Tick(distance: real, straight: seq<Sample>, firstTurn: seq<Sample>, secondTurn: seq<Sample>)

  /**
   * One pass of `area_search`'s loop: a clear path takes one drift-tracked
   * step; a wall triggers the lane shift with two measured turns and flips
   * the direction.
   */
  function Iteration(s: Search, t: Tick, trig: Trig): (next: Search)
    ensures next.turnDirection == if PathClear(t.distance) then s.turnDirection else -s.turnDirection
    ensures ValidPose(next.pose)
  {
    if PathClear(t.distance) then
      var d := DriftFrom(t.straight, StepTime, s.pose.heading, NoDrift, trig);
      Search(UpdatedPose(s.pose, 0.0, d.rotation, Some(d.dx), Some(d.dy), trig), s.turnDirection, s.commands + [Cruise])
    else
      var d := s.turnDirection;
      var turned := MeasuredTurn(s.pose, d, t.firstTurn, trig);
      var shifted := Advance(turned, CruiseDistance(ShiftTime), 0.0, trig);
      var back := MeasuredTurn(shifted, d, t.secondTurn, trig);
      Search(back, d * -1.0, s.commands + LaneShiftCommands(Profile, d))
  }

  function Run(s: Search, ticks: seq<Tick>, trig: Trig): Search
    decreases |ticks|
  {
    if ticks == [] then s else Run(Iteration(s, ticks[0], trig), ticks[1..], trig)
  }

  function Obstacles(ticks: seq<Tick>): nat
    decreases |ticks|
  {
    if ticks == [] then 0
    else (if PathClear(ticks[0].distance) then 0 else 1) + Obstacles(ticks[1..])
  }

  /** The robot: the script's globals and the last values written to its motor pins. */
  class Bot {
    const trig: Trig
    var x: real
    var y: real
    var heading: real
    var leftWheel: Wheel
    var rightWheel: Wheel
    /** Every `(left, right)` passed to `motor_control`, oldest first. */
    ghost var commands: seq<Command>

    function CurrentPose(): Pose
      reads this
    {
      Pose(x, y, heading)
    }

    constructor (trig: Trig)
      ensures this.trig == trig
      ensures CurrentPose() == Origin
      ensures leftWheel == Idle && rightWheel == Idle && commands == []
    {
      this.trig := trig;
      x, y, heading := 0.0, 0.0, 0.0;
      leftWheel, rightWheel := Idle, Idle;
      commands := [];
    }

    /** `motor_control(left, right)`: bias each request, then write duty and direction pins. */
    method MotorControl(left: real, right: real)
      modifies this
      ensures leftWheel == WheelFor(left * Profile.leftBias) && rightWheel == WheelFor(right * Profile.rightBias)
      ensures commands == old(commands) + [Command(left, right)]
      ensures CurrentPose() == old(CurrentPose())
    {
      var finalLeft := left * Profile.leftBias;
      var finalRight := right * Profile.rightBias;
      leftWheel := WheelFor(finalLeft);
      rightWheel := WheelFor(finalRight);
      commands := commands + [Command(left, right)];
    }

    /** `update_map(dist_moved, angle_change, dx, dy)`; the telemetry post is not modelled. */
    method UpdateMap(distMoved: real, angleChange: real, dx: Option<real>, dy: Option<real>)
      modifies this
      ensures CurrentPose() == UpdatedPose(old(CurrentPose()), distMoved, angleChange, dx, dy, trig)
      ensures leftWheel == old(leftWheel) && rightWheel == old(rightWheel) && commands == old(commands)
    {
      heading := Mod360(heading + angleChange);
      if dx.Some? && dy.Some? {
        x := x + dx.value;
        y := y + dy.value;
      } else {
        x := x + distMoved * Cos(trig, heading);
        y := y + distMoved * Sin(trig, heading);
      }
    }

    /**
     * `turn_degrees(target_deg)`: pivot in the calibrated direction, integrate
     * the gyro until the calibrated duration has elapsed, stop, and commit the
     * MEASURED rotation (returned) to the heading without moving.
     */
    method TurnDegrees(targetDeg: real, samples: seq<Sample>) returns (totalRotated: real)
      modifies this
      ensures totalRotated == TurnRotation(samples, TurnDuration(Profile, targetDeg))
      ensures CurrentPose() == Advance(old(CurrentPose()), 0.0, totalRotated, trig)
      ensures commands == old(commands) + TurnCommands(Profile, targetDeg)
      ensures leftWheel == WheelFor(0.0) && rightWheel == WheelFor(0.0)
    {
      var magicNumber: real;
      if targetDeg > 0.0 {
        magicNumber := TimeLeft90;
        MotorControl(-TurnSpeed, TurnSpeed);
      } else {
        magicNumber := TimeRight90;
        MotorControl(TurnSpeed, -TurnSpeed);
      }
      var duration := Abs(targetDeg / 90.0) * magicNumber;
      totalRotated := IntegrateRotation(samples, duration);
      MotorControl(0.0, 0.0);
      UpdateMap(0.0, totalRotated, None, None);
    }

    /**
     * `area_search()` over the passes made before the keyboard interrupt
     * arrives; the handler then stops both motors.
     */
    method AreaSearch(ticks: seq<Tick>) returns (turnDirection: real)
      modifies this
      ensures var s := Run(Search(old(CurrentPose()), 90.0, old(commands)), ticks, trig);
        CurrentPose() == s.pose && turnDirection == s.turnDirection && commands == s.commands + [Stop]
      ensures leftWheel == WheelFor(0.0) && rightWheel == WheelFor(0.0)
    {
      turnDirection := 90.0;
      var i := 0;
      while i < |ticks|
        invariant 0 <= i <= |ticks|
        invariant Run(Search(CurrentPose(), turnDirection, commands), ticks[i..], trig)
               == Run(Search(old(CurrentPose()), 90.0, old(commands)), ticks, trig)
      {
        ghost var before := Search(CurrentPose(), turnDirection, commands);
        var tick := ticks[i];
        var dist := tick.distance * 100.0;
        if dist > ObstacleCm {
          MotorControl(0.5, 0.5);
          var step := TrackStraightStep(heading, tick.straight, trig);
          UpdateMap(0.0, step.rotation, Some(step.dx), Some(step.dy));
        } else {
          MotorControl(0.0, 0.0);
          var _ := TurnDegrees(turnDirection, tick.firstTurn);
          MotorControl(0.5, 0.5);
          UpdateMap(SpeedCmS * 0.5 * ShiftTime, 0.0, None, None);
          var _ := TurnDegrees(turnDirection, tick.secondTurn);
          turnDirection := turnDirection * -1.0;
        }
        assert Search(CurrentPose(), turnDirection, commands) == Iteration(before, tick, trig);
        assert ticks[i..][1..] == ticks[i + 1..];
        i := i + 1;
      }
      MotorControl(0.0, 0.0);
    }
  }

  /**
   * A clear path whose gyro samples are all quiet keeps the heading and moves
   * straight along it by 7.5 cm/s times the time the step's loop ran.
   */
  lemma QuietClearStepKeepsHeading(s: Search, t: Tick, trig: Trig)
    requires ValidPose(s.pose) && PathClear(t.distance)
    requires forall i :: 0 <= i < |t.straight| ==> Quiet(t.straight[i])
    ensures var next := Iteration(s, t, trig);
      var dist := CruiseDistance(ElapsedTime(t.straight, StepTime));
      next.pose == Pose(s.pose.x + dist * Cos(trig, s.pose.heading), s.pose.y + dist * Sin(trig, s.pose.heading), s.pose.heading)
      && next.turnDirection == s.turnDirection
  {
    QuietStepIsStraight(t.straight, StepTime, s.pose.heading, NoDrift, trig);
    Mod360Identity(s.pose.heading);
    assert s.pose.heading + 0.0 == s.pose.heading;
  }

  /**
   * A wall costs one lane shift: the heading changes by the two MEASURED
   * rotations (not by twice the nominal direction), the robot ends 7.5 cm
   * along the heading the first measured turn reached, the commands are stop,
   * pivot, stop, shift, pivot, stop with both pivots the same way, and the
   * direction flips.
   */
  lemma ObstacleCycle(s: Search, t: Tick, trig: Trig)
    requires !PathClear(t.distance)
    ensures var next := Iteration(s, t, trig);
      var duration := TurnDuration(Profile, s.turnDirection);
      var shiftHeading := Mod360(s.pose.heading + TurnRotation(t.firstTurn, duration));
      next.pose.heading == Mod360(s.pose.heading + TurnRotation(t.firstTurn, duration) + TurnRotation(t.secondTurn, duration))
      && next.pose.x == s.pose.x + 7.5 * Cos(trig, shiftHeading)
      && next.pose.y == s.pose.y + 7.5 * Sin(trig, shiftHeading)
      && next.turnDirection == -s.turnDirection
      && next.commands == s.commands
           + [Stop, TurnDrive(Profile, s.turnDirection), Stop, Cruise, TurnDrive(Profile, s.turnDirection), Stop]
  {
    var d := s.turnDirection;
    var duration := TurnDuration(Profile, d);
    var r1 := TurnRotation(t.firstTurn, duration);
    var r2 := TurnRotation(t.secondTurn, duration);
    var turned := MeasuredTurn(s.pose, d, t.firstTurn, trig);
    assert CruiseDistance(ShiftTime) == 7.5;
    AdvanceStraight(turned, CruiseDistance(ShiftTime), trig);
    Mod360AddLeft(s.pose.heading + r1, r2);
  }

  /**
   * Both pivots of a lane shift turn the same way, the way the direction's
   * sign selects: `TURN_SPEED` is requested for both wheels in opposite
   * directions, which after the bias is 0.4032 duty on the left wheel.
   */
  lemma LaneShiftPivotsAgree(turnDirection: real)
    requires turnDirection == 90.0 || turnDirection == -90.0
    ensures var c := TurnDrive(Profile, turnDirection);
      c.left == -c.right && Abs(c.left) == TurnSpeed && (c.right > 0.0 <==> turnDirection > 0.0)
    ensures WheelFor(TurnDrive(Profile, turnDirection).left * Profile.leftBias).pwm == 0.4032
    ensures TurnDuration(Profile, turnDirection) == if turnDirection > 0.0 then TimeLeft90 else TimeRight90
  {
    TurnDurationScales(Profile, turnDirection);
  }

  /** `turn_direction` flips exactly once per wall: its final sign is the parity of the walls seen. */
  lemma {:induction false} DirectionParity(s: Search, ticks: seq<Tick>, trig: Trig)
    ensures Run(s, ticks, trig).turnDirection == if Obstacles(ticks) % 2 == 0 then s.turnDirection else -s.turnDirection
    decreases |ticks|
  {
    if ticks != [] {
      var t := Iteration(s, ticks[0], trig);
      DirectionParity(t, ticks[1..], trig);
      var n := Obstacles(ticks[1..]);
      if PathClear(ticks[0].distance) {
        assert Obstacles(ticks) == n && t.turnDirection == s.turnDirection;
      } else {
        assert Obstacles(ticks) == n + 1 && t.turnDirection == -s.turnDirection;
        assert (n + 1) % 2 == 0 <==> n % 2 != 0;
      }
    }
  }

  /** However many passes the loop makes, the heading stays in [0, 360). */
  lemma {:induction false} HeadingStaysNormalized(s: Search, ticks: seq<Tick>, trig: Trig)
    requires ValidPose(s.pose)
    ensures ValidPose(Run(s, ticks, trig).pose)
    decreases |ticks|
  {
    if ticks != [] {
      HeadingStaysNormalized(Iteration(s, ticks[0], trig), ticks[1..], trig);
    }
  }

  /** Starting from 90, `turn_direction` only ever holds 90 or -90. */
  lemma DirectionStaysLateral(p: Pose, log: seq<Command>, ticks: seq<Tick>, trig: Trig)
    ensures Run(Search(p, 90.0, log), ticks, trig).turnDirection in {90.0, -90.0}
  {
    DirectionParity(Search(p, 90.0, log), ticks, trig);
  }
}
