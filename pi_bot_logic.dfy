/**
 * pi/bot_logic.py: the timed script with a 0.98 left-motor bias and a turn
 * that drives a single wheel. Its control loop is `TimedSweep.Bot` built with
 * `Profile`.
 */
module PiBotLogic {
  import opened Geometry
  import opened Motors
  import TimedSweep

  /** `TURN_SPEED`: the duty of the single wheel that drives a turn. */
  const TurnSpeed: real := 0.42

  /**
   * `LEFT_MOTOR_BIAS`, `RIGHT_MOTOR_BIAS`, `TIME_LEFT_90`, `TIME_RIGHT_90`,
   * and the drives of `turn_degrees`: the right wheel alone for a positive
   * target, the left wheel alone otherwise.
   */
  const Profile := Calibration(0.98, 1.00, 0.94, 0.90, Command(0.0, TurnSpeed), Command(TurnSpeed, 0.0))

  /**
   * `motor_control` scales the left request to 98% and passes the right one
   * through; the direction pins follow the sign of the request.
   */
  lemma MotorBias(left: real, right: real)
    ensures WheelFor(left * Profile.leftBias) == Wheel(0.98 * Abs(left), WheelFor(left).dir1, WheelFor(left).dir2)
    ensures WheelFor(right * Profile.rightBias) == WheelFor(right)
  {
    BiasedWheel(left, 0.98);
  }

  /**
   * A turn requests `TURN_SPEED` forward for exactly one wheel while the other
   * rests: the right wheel exactly when the target is positive. After the
   * bias the left wheel runs at 0.4116 duty when it is the one driven.
   */
  lemma TurnDrivesOneWheel(targetDeg: real)
    ensures var c := TurnDrive(Profile, targetDeg);
      (c.left == 0.0) != (c.right == 0.0) && c.left + c.right == TurnSpeed
      && (c.right > 0.0 <==> targetDeg > 0.0)
    ensures targetDeg <= 0.0 ==> WheelFor(TurnDrive(Profile, targetDeg).left * Profile.leftBias) == Wheel(0.4116, 1, 0)
  {
  }

  /** A positive quarter turn is driven for 0.94 s, a negative one for 0.90 s, a half turn for twice as long. */
  lemma TurnDurations()
    ensures TurnDuration(Profile, 90.0) == 0.94 && TurnDuration(Profile, -90.0) == 0.90
    ensures TurnDuration(Profile, 180.0) == 1.88 && TurnDuration(Profile, 0.0) == 0.0
  {
    TurnDurationScales(Profile, 180.0);
    TurnDurationScales(Profile, 0.0);
  }

  /** The script's globals at start-up: at the origin facing 0, motors off, with this script's constants. */
  method NewBot(trig: Trig) returns (bot: TimedSweep.Bot)
    ensures fresh(bot) && bot.cal == Profile && bot.trig == trig
    ensures bot.CurrentPose() == Origin && bot.leftWheel == Idle && bot.rightWheel == Idle && bot.commands == []
  {
    bot := new TimedSweep.Bot(Profile, trig);
  }
}
