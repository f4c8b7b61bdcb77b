/**
 * The two timed scripts, pi/bot_logic.py and bot_logic.py. They behave
 * alike up to calibration (motor bias, the time and the drive of a 90-degree
 * turn), so one class parameterised by a `Calibration` models both;
 * `PiBotLogic` and `BotLogic` hold each script's constants.
 *
 * A turn is timed, not measured: the heading changes by the nominal target.
 */
module TimedSweep {
  import opened Geometry
  import opened Motors
  import opened Sweep

  /**
   * One pass of the `while True` loop of `area_search` given the sensor's
   * reading: a clear path takes one straight step; a wall triggers the lane
   * shift (stop, turn, shift forward, turn the same way) and flips the
   * direction of the next lane.
   */
  function Iteration(cal: Calibration, s: Search, distance: real, trig: Trig): (next: Search)
    ensures next.turnDirection == if PathClear(distance) then s.turnDirection else -s.turnDirection
    ensures ValidPose(next.pose)
  {
    if PathClear(distance) then
      Search(Advance(s.pose, CruiseDistance(StepTime), 0.0, trig), s.turnDirection, s.commands + [Cruise])
    else
      var d := s.turnDirection;
      var turned := Advance(s.pose, 0.0, d, trig);
      var shifted := Advance(turned, CruiseDistance(ShiftTime), 0.0, trig);
      var back := Advance(shifted, 0.0, d, trig);
      Search(back, d * -1.0, s.commands + LaneShiftCommands(cal, d))
  }

  /** The loop run over a whole sequence of sensor readings. */
  function Run(cal: Calibration, s: Search, distances: seq<real>, trig: Trig): Search
    decreases |distances|
  {
    if distances == [] then s else Run(cal, Iteration(cal, s, distances[0], trig), distances[1..], trig)
  }

  /** How many of the readings are walls. */
  function Obstacles(distances: seq<real>): nat
    decreases |distances|
  {
    if distances == [] then 0
    else (if PathClear(distances[0]) then 0 else 1) + Obstacles(distances[1..])
  }

  /** The robot: the script's globals and the last values written to its motor pins. */
  class Bot {
    const cal: Calibration
    const trig: Trig
    var x: real
    var y: real
    var heading: real
    var leftWheel: Wheel
    var rightWheel: Wheel
    /** Every `(left, right)` passed to `motor_control`, oldest first. */
    ghost var commands: seq<Command>

    function CurrentPose(): Pose
      reads this
    {
      Pose(x, y, heading)
    }

    constructor (cal: Calibration, trig: Trig)
      ensures this.cal == cal && this.trig == trig
      ensures CurrentPose() == Origin
      ensures leftWheel == Idle && rightWheel == Idle && commands == []
    {
      this.cal := cal;
      this.trig := trig;
      x, y, heading := 0.0, 0.0, 0.0;
      leftWheel, rightWheel := Idle, Idle;
      commands := [];
    }

    /** `motor_control(left, right)`: bias each request, then write duty and direction pins. */
    method MotorControl(left: real, right: real)
      modifies this
      ensures leftWheel == WheelFor(left * cal.leftBias) && rightWheel == WheelFor(right * cal.rightBias)
      ensures commands == old(commands) + [Command(left, right)]
      ensures CurrentPose() == old(CurrentPose())
    {
      var finalLeft := left * cal.leftBias;
      var finalRight := right * cal.rightBias;
      leftWheel := WheelFor(finalLeft);
      rightWheel := WheelFor(finalRight);
      commands := commands + [Command(left, right)];
    }

    /** `update_map(dist_moved, angle_change)`; the telemetry post is not modelled. */
    method UpdateMap(distMoved: real, angleChange: real)
      modifies this
      ensures CurrentPose() == Advance(old(CurrentPose()), distMoved, angleChange, trig)
      ensures leftWheel == old(leftWheel) && rightWheel == old(rightWheel) && commands == old(commands)
    {
      heading := Mod360(heading + angleChange);
      x := x + distMoved * Cos(trig, heading);
      y := y + distMoved * Sin(trig, heading);
    }

    /**
     * `turn_degrees(target_deg)`: drive for the calibrated duration (returned
     * here; the script sleeps for it), stop, and commit the nominal target
     * to the heading without moving.
     */
    method TurnDegrees(targetDeg: real) returns (duration: real)
      modifies this
      ensures duration == TurnDuration(cal, targetDeg)
      ensures CurrentPose() == Advance(old(CurrentPose()), 0.0, targetDeg, trig)
      ensures commands == old(commands) + TurnCommands(cal, targetDeg)
      ensures leftWheel == WheelFor(0.0) && rightWheel == WheelFor(0.0)
    {
      duration := TurnDuration(cal, targetDeg);
      var drive := TurnDrive(cal, targetDeg);
      MotorControl(drive.left, drive.right);
      MotorControl(0.0, 0.0);
      UpdateMap(0.0, targetDeg);
    }

    /**
     * `area_search()` over the sensor readings taken before the keyboard
     * interrupt arrives; the handler then stops both motors.
     */
    method AreaSearch(distances: seq<real>) returns (turnDirection: real)
      modifies this
      ensures var s := Run(cal, Search(old(CurrentPose()), 90.0, old(commands)), distances, trig);
        CurrentPose() == s.pose && turnDirection == s.turnDirection && commands == s.commands + [Stop]
      ensures leftWheel == WheelFor(0.0) && rightWheel == WheelFor(0.0)
    {
      turnDirection := 90.0;
      var i := 0;
      while i < |distances|
        invariant 0 <= i <= |distances|
        invariant Run(cal, Search(CurrentPose(), turnDirection, commands), distances[i..], trig)
               == Run(cal, Search(old(CurrentPose()), 90.0, old(commands)), distances, trig)
      {
        ghost var before := Search(CurrentPose(), turnDirection, commands);
        var dist := distances[i] * 100.0;
        if dist > ObstacleCm {
          MotorControl(0.5, 0.5);
          var stepTime := StepTime;
          UpdateMap(SpeedCmS * 0.5 * stepTime, 0.0);
        } else {
          MotorControl(0.0, 0.0);
          var _ := TurnDegrees(turnDirection);
          MotorControl(0.5, 0.5);
          UpdateMap(SpeedCmS * 0.5 * ShiftTime, 0.0);
          var _ := TurnDegrees(turnDirection);
          turnDirection := turnDirection * -1.0;
        }
        assert Search(CurrentPose(), turnDirection, commands) == Iteration(cal, before, distances[i], trig);
        assert distances[i..][1..] == distances[i + 1..];
        i := i + 1;
      }
      MotorControl(0.0, 0.0);
    }
  }

  /** A clear reading moves 1.5 cm straight along the heading and changes nothing else but the log. */
  lemma ClearStepGoesStraight(cal: Calibration, s: Search, distance: real, trig: Trig)
    requires ValidPose(s.pose) && PathClear(distance)
    ensures var t := Iteration(cal, s, distance, trig);
      t.pose == Pose(s.pose.x + 1.5 * Cos(trig, s.pose.heading), s.pose.y + 1.5 * Sin(trig, s.pose.heading), s.pose.heading)
      && t.turnDirection == s.turnDirection && t.commands == s.commands + [Cruise]
  {
    AdvanceStraight(s.pose, CruiseDistance(StepTime), trig);
  }

  /** Four clear steps from the origin facing heading 0 end at (6, 0), still facing 0. */
  lemma FourClearStepsFromOrigin(cal: Calibration, distances: seq<real>, trig: Trig)
    requires KnowsZero(trig)
    requires |distances| == 4 && forall i :: 0 <= i < 4 ==> PathClear(distances[i])
    ensures Run(cal, Search(Origin, 90.0, []), distances, trig).pose == Pose(6.0, 0.0, 0.0)
  {
    var s0 := Search(Origin, 90.0, []);
    ClearStepGoesStraight(cal, s0, distances[0], trig);
    var s1 := Iteration(cal, s0, distances[0], trig);
    ClearStepGoesStraight(cal, s1, distances[1], trig);
    var s2 := Iteration(cal, s1, distances[1], trig);
    ClearStepGoesStraight(cal, s2, distances[2], trig);
    var s3 := Iteration(cal, s2, distances[2], trig);
    ClearStepGoesStraight(cal, s3, distances[3], trig);
    var s4 := Iteration(cal, s3, distances[3], trig);
    assert s4.pose == Pose(6.0, 0.0, 0.0);
    var rest := distances[1..];
    assert Run(cal, s0, distances, trig) == Run(cal, s1, rest, trig);
    assert Run(cal, s1, rest, trig) == Run(cal, s2, rest[1..], trig);
    assert Run(cal, s2, rest[1..], trig) == Run(cal, s3, rest[1..][1..], trig);
    assert Run(cal, s3, rest[1..][1..], trig) == Run(cal, s4, rest[1..][1..][1..], trig);
    assert rest[1..][1..][1..] == [];
  }

  /**
   * A wall costs one full lane shift: the heading turns twice by the current
   * direction (half a revolution for a 90-degree direction), the robot ends
   * 7.5 cm along the heading the first turn reached, it issues stop, turn,
   * stop, shift, turn, stop, and the direction flips sign.
   */
  lemma ObstacleCycle(cal: Calibration, s: Search, distance: real, trig: Trig)
    requires !PathClear(distance)
    ensures var t := Iteration(cal, s, distance, trig);
      t.pose.heading == Mod360(s.pose.heading + 2.0 * s.turnDirection)
      && t.pose.x == s.pose.x + 7.5 * Cos(trig, Mod360(s.pose.heading + s.turnDirection))
      && t.pose.y == s.pose.y + 7.5 * Sin(trig, Mod360(s.pose.heading + s.turnDirection))
      && t.turnDirection == -s.turnDirection
      && t.commands == s.commands + [Stop, TurnDrive(cal, s.turnDirection), Stop, Cruise, TurnDrive(cal, s.turnDirection), Stop]
  {
    var d := s.turnDirection;
    var turned := Advance(s.pose, 0.0, d, trig);
    assert CruiseDistance(ShiftTime) == 7.5;
    AdvanceStraight(turned, CruiseDistance(ShiftTime), trig);
    Mod360AddLeft(s.pose.heading + d, d);
    assert s.pose.heading + d + d == s.pose.heading + 2.0 * d;
  }

  /** Two walls in a row (with 90 then -90) bring a normalised heading back to where it was. */
  lemma TwoCyclesRestoreHeading(cal: Calibration, s: Search, first: real, second: real, trig: Trig)
    requires ValidPose(s.pose) && !PathClear(first) && !PathClear(second)
    ensures Iteration(cal, Iteration(cal, s, first, trig), second, trig).pose.heading == s.pose.heading
  {
    var t := Iteration(cal, s, first, trig);
    ObstacleCycle(cal, s, first, trig);
    ObstacleCycle(cal, t, second, trig);
    assert 2.0 * t.turnDirection == -(2.0 * s.turnDirection);
    Mod360TurnBack(s.pose.heading, 2.0 * s.turnDirection);
  }

  /** `turn_direction` flips exactly once per wall: its final sign is the parity of the walls seen. */
  lemma {:induction false} DirectionParity(cal: Calibration, s: Search, distances: seq<real>, trig: Trig)
    ensures Run(cal, s, distances, trig).turnDirection
         == if Obstacles(distances) % 2 == 0 then s.turnDirection else -s.turnDirection
    decreases |distances|
  {
    if distances != [] {
      var t := Iteration(cal, s, distances[0], trig);
      assert Run(cal, s, distances, trig).turnDirection == Run(cal, t, distances[1..], trig).turnDirection;
      DirectionParity(cal, t, distances[1..], trig);
      var n := Obstacles(distances[1..]);
      if PathClear(distances[0]) {
        assert Obstacles(distances) == n && t.turnDirection == s.turnDirection;
      } else {
        assert Obstacles(distances) == n + 1 && t.turnDirection == -s.turnDirection;
        assert (n + 1) % 2 == 0 <==> n % 2 != 0;
      }
    }
  }

  /** However many passes the loop makes, the heading stays in [0, 360). */
  lemma {:induction false} HeadingStaysNormalized(cal: Calibration, s: Search, distances: seq<real>, trig: Trig)
    requires ValidPose(s.pose)
    ensures ValidPose(Run(cal, s, distances, trig).pose)
    decreases |distances|
  {
    if distances != [] {
      HeadingStaysNormalized(cal, Iteration(cal, s, distances[0], trig), distances[1..], trig);
    }
  }

  /** Starting from 90, `turn_direction` only ever holds 90 or -90. */
  lemma DirectionStaysLateral(cal: Calibration, p: Pose, log: seq<Command>, distances: seq<real>, trig: Trig)
    ensures Run(cal, Search(p, 90.0, log), distances, trig).turnDirection in {90.0, -90.0}
  {
    DirectionParity(cal, Search(p, 90.0, log), distances, trig);
  }
}
