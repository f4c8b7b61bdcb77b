/**
 * The motor side shared by the three robot scripts: what `motor_control`
 * writes to one wheel's PWM device and two direction pins, the calibration
 * constants that differ between the scripts, and the constants they share.
 */
module Motors {
  import opened Geometry

  /** The last values written to one wheel's `PWMOutputDevice` and its two `DigitalOutputDevice`s. */
  datatype Wheel = Wheel(pwm: real, dir1: int, dir2: int)

  /** gpiozero output devices start switched off. */
  const Idle := Wheel(0.0, 0, 0)

  /**
   * One wheel's half of `motor_control`: the PWM duty is the magnitude of
   * the (already biased) drive value, `dir1` is high exactly for a forward
   * drive and `dir2` is its complement, so a zero drive raises `dir2`.
   */
  function WheelFor(final: real): (w: Wheel)
    ensures w.pwm == Abs(final) && w.pwm >= 0.0
    ensures w.dir1 == 1 <==> final > 0.0
    ensures w.dir1 + w.dir2 == 1 && (w.dir1 == 0 || w.dir1 == 1)
    ensures w.pwm == 0.0 <==> final == 0.0
  {
    Wheel(Abs(final), if final > 0.0 then 1 else 0, if final > 0.0 then 0 else 1)
  }

  /** The signed drive a wheel's pins stand for: forward when `dir1` is high. */
  function SignedDrive(w: Wheel): real {
    if w.dir1 == 1 then w.pwm else -w.pwm
  }

  /** The pins lose nothing: the signed drive can be read back from them. */
  lemma WheelRoundTrip(final: real)
    ensures SignedDrive(WheelFor(final)) == final
  {
  }

  /**
   * A positive bias scales the duty and never changes the direction pins:
   * the biased command points the same way as the requested one.
   */
  lemma BiasedWheel(v: real, bias: real)
    requires bias > 0.0
    ensures WheelFor(v * bias) == Wheel(bias * Abs(v), WheelFor(v).dir1, WheelFor(v).dir2)
  {
    if v > 0.0 {
      assert v * bias > 0.0;
    } else if v < 0.0 {
      assert v * bias < 0.0;
      assert Abs(v * bias) == -(v * bias) == bias * -v;
    } else {
      assert v * bias == 0.0;
    }
  }

  /** A `(left, right)` request passed to `motor_control`. */
  datatype Command = Command(left: real, right: real)

  const Stop := Command(0.0, 0.0)

  /** Both wheels forward at half duty, used for every straight move. */
  const Cruise := Command(0.5, 0.5)

  /** `SPEED_CM_S`: the forward speed in cm/s at full duty. */
  const SpeedCmS: real := 15.0

  /** `step_time` of one clear-path step, in seconds. */
  const StepTime: real := 0.2

  /** `time.sleep(1.0)` of the lane shift, in seconds. */
  const ShiftTime: real := 1.0

  /** A reading at or below this many centimetres counts as a wall. */
  const ObstacleCm: real := 25.0

  /** Distance covered at `Cruise` for `seconds`: `SPEED_CM_S * 0.5 * seconds`. */
  function CruiseDistance(seconds: real): real {
    SpeedCmS * 0.5 * seconds
  }

  /**
   * The per-script constants: left and right motor bias, the time a 90-degree
   * turn takes for a positive and for any other target, and the drive
   * `turn_degrees` issues for each.
   */
  datatype Calibration = Calibration(
    leftBias: real, rightBias: real,
    timePositive90: real, timeOther90: real,
    turnPositive: Command, turnOther: Command)

  /** `duration = abs(target_deg / 90.0) * magic`, the magic factor chosen by the sign of the target. */
  function TurnDuration(cal: Calibration, targetDeg: real): (duration: real)
    ensures targetDeg > 0.0 ==> duration == targetDeg / 90.0 * cal.timePositive90
    ensures targetDeg <= 0.0 ==> duration == -targetDeg / 90.0 * cal.timeOther90
  {
    Abs(targetDeg / 90.0) * (if targetDeg > 0.0 then cal.timePositive90 else cal.timeOther90)
  }

  /** The drive `turn_degrees` issues before it waits. */
  function TurnDrive(cal: Calibration, targetDeg: real): (drive: Command)
    ensures targetDeg > 0.0 ==> drive == cal.turnPositive
    ensures targetDeg <= 0.0 ==> drive == cal.turnOther
  {
    if targetDeg > 0.0 then cal.turnPositive else cal.turnOther
  }

  /** Every command `turn_degrees` issues: the turn drive, then a stop. */
  function TurnCommands(cal: Calibration, targetDeg: real): seq<Command> {
    [TurnDrive(cal, targetDeg), Stop]
  }

  /**
   * With non-negative calibration factors a turn never takes negative time,
   * a quarter turn takes exactly the factor of its sign, and a zero target
   * takes no time.
   */
  lemma TurnDurationScales(cal: Calibration, targetDeg: real)
    requires cal.timePositive90 >= 0.0 && cal.timeOther90 >= 0.0
    ensures TurnDuration(cal, targetDeg) >= 0.0
    ensures TurnDuration(cal, 0.0) == 0.0
    ensures TurnDuration(cal, 90.0) == cal.timePositive90 && TurnDuration(cal, -90.0) == cal.timeOther90
  {
    assert Abs(90.0 / 90.0) == 1.0;
    assert Abs(-90.0 / 90.0) == 1.0;
  }
}
