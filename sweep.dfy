/**
 * What the `area_search` control loops of all three robot scripts have in
 * common: the wall test on the distance sensor and the state the loop
 * carries from one pass to the next.
 */
module Sweep {
  import opened Geometry
  import opened Motors

  /** `sensor.distance * 100 > 25`: the sensor reports metres, the loop compares centimetres. */
  predicate PathClear(distance: real): (clear: bool)
    ensures clear <==> distance > 0.25
  {
    distance * 100.0 > ObstacleCm
  }

  /** The pose, the loop-local `turn_direction` and every motor command issued so far. */
  datatype Search = Search(pose: Pose, turnDirection: real, commands: seq<Command>)

  /** The commands of one lane shift: stop, turn, shift forward, turn the same way. */
  function LaneShiftCommands(cal: Calibration, turnDirection: real): seq<Command> {
    [Stop] + TurnCommands(cal, turnDirection) + [Cruise] + TurnCommands(cal, turnDirection)
  }
}
