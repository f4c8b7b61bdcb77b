/**
 * bot_logic.py: the timed script with no motor bias and a pivot turn (both
 * wheels at 0.6, in opposite directions). Its control loop is
 * `TimedSweep.Bot` built with `Profile`.
 */
module BotLogic {
  import opened Geometry
  import opened Motors
  import TimedSweep

  /** `TURN_SPEED`. */
  const TurnSpeed: real := 0.6

  /**
   * No bias on either motor, 0.8 s per quarter turn whatever its sign, and the
   * drive `(TURN_SPEED * direction, -TURN_SPEED * direction)` with `direction`
   * 1 for a positive target and -1 otherwise.
   */
  const Profile := Calibration(1.0, 1.0, 0.8, 0.8,
    Command(TurnSpeed * 1.0, -TurnSpeed * 1.0), Command(TurnSpeed * -1.0, -TurnSpeed * -1.0))

  /** `motor_control` writes the requests unscaled. */
  lemma NoBias(left: real, right: real)
    ensures WheelFor(left * Profile.leftBias) == WheelFor(left)
    ensures WheelFor(right * Profile.rightBias) == WheelFor(right)
  {
  }

  /**
   * A turn is a pivot: both wheels at `TURN_SPEED`, in opposite directions,
   * the left one forward exactly when the target is positive.
   */
  lemma TurnIsPivot(targetDeg: real)
    ensures var c := TurnDrive(Profile, targetDeg);
      c.left == -c.right && Abs(c.left) == TurnSpeed && (c.left > 0.0 <==> targetDeg > 0.0)
  {
  }

  /** Turning either way takes the same time, 0.8 s per quarter turn. */
  lemma TurnDurationSymmetric(targetDeg: real)
    ensures TurnDuration(Profile, -targetDeg) == TurnDuration(Profile, targetDeg)
    ensures TurnDuration(Profile, 90.0) == 0.8
  {
    assert Abs(-targetDeg / 90.0) == Abs(targetDeg / 90.0);
    TurnDurationScales(Profile, 90.0);
  }

  /** The script's globals at start-up: at the origin facing 0, motors off, with this script's constants. */
  method NewBot(trig: Trig) returns (bot: TimedSweep.Bot)
    ensures fresh(bot) && bot.cal == Profile && bot.trig == trig
    ensures bot.CurrentPose() == Origin && bot.leftWheel == Idle && bot.rightWheel == Idle && bot.commands == []
  {
    bot := new TimedSweep.Bot(Profile, trig);
  }
}
