# Area-scouting robot: dead reckoning, boustrophedon sweep and discovery log

This project models, in Dafny, the core of a small scouting robot and its
telemetry server.

* **The robot scripts** (`pi/bot.py`, `pi/bot_logic.py`, `bot_logic.py`). Each
  keeps a dead-reckoned pose `(x, y, heading)`. `motor_control` writes a PWM
  duty and two direction pins per wheel. `update_map` folds a turn into the
  heading modulo 360 and moves along the new heading. `turn_degrees` pivots
  for a calibrated time. `area_search` sweeps the area lane by lane: a clear
  path means a straight step, and a wall within 25 cm means a lane shift
  (stop, turn, shift forward, turn the same way, flip the direction).
  * `pi/bot.py` also integrates the gyro. A turn commits the measured
    rotation, and a straight step tracks drift along the instantaneous
    heading.
  * The two other scripts behave alike up to calibration: their
    `turn_degrees` differ in the drive (one wheel in `pi/bot_logic.py`, a
    pivot in `bot_logic.py`) and in the time per quarter turn, and only
    `pi/bot_logic.py` biases the motors. `TimedSweep.Bot`, parameterised by a
    `Motors.Calibration`, models both, and `PiBotLogic` and `BotLogic` hold
    each script's constants.
* **The telemetry servers** (`backend/backend.py` and the older `backend.py`).
  They keep the last reported pose and a log of discoveries. A detection is
  logged only when no item with the same upper-cased label lies strictly
  within 15 cm.

Modules:

| file | module | models |
|---|---|---|
| wrappers.dfy | `Wrappers` | `Option` and `Result` |
| geometry.dfy | `Geometry` | Python's float `% 360`, the pose and the `update_map` step |
| motors.dfy | `Motors` | what `motor_control` writes to a wheel, the shared constants, the turn calibration |
| sweep.dfy | `Sweep` | the wall test and the state the sweep carries from one pass to the next |
| timed_sweep.dfy | `TimedSweep` | the timed robot of `pi/bot_logic.py` and `bot_logic.py` as a class, and its loop as a function |
| pi_bot_logic.dfy | `PiBotLogic` | the constants of `pi/bot_logic.py` |
| bot_logic.dfy | `BotLogic` | the constants of `bot_logic.py` |
| pi_bot.dfy | `PiBot` | the gyro-tracking robot of `pi/bot.py` |
| discovery.dfy | `Discovery` | the deduplication rule and the log invariant |
| backend.dfy | `Backend` | the server state and handlers of `backend/backend.py` |
| root_backend.dfy | `RootBackend` | `backend.py` as written, including its missing import |

How the model stands in for the outside world:

* **Numbers.** Floats are reals. Cosine and sine of a heading in degrees are
  two uninterpreted functions carried in a `Geometry.Trig` value.
* **Sensors.** The distance sensor's readings are a sequence given to
  `AreaSearch`, one per pass of the `while True` loop.
* **Interrupt.** The keyboard interrupt arrives after the last pass, and the
  handler's `motor_control(0, 0)` follows.
* **Time.** The clock is an input. Every pass of a gyro sampling loop
  carries the reading its loop-head test `time.time() - start < duration`
  saw and the `dt` the pass measured. A sampling loop runs until the first
  pass whose loop-head reading is no longer below its duration, so the
  `time.sleep(0.01)` after each read counts towards the test as it does in
  the script.
* **Motor history.** Every `motor_control` call is kept in a ghost trace,
  `commands`, so the order of commands and the final stop can be stated.

Where the system's design description and the code differ, the model follows
the code:

* **Committed turn.** The design says every pivot commits the gyro-integrated
  rotation. Only `pi/bot.py` does that. `pi/bot_logic.py` and `bot_logic.py`
  commit the nominal target (`TimedSweep.Bot.TurnDegrees`).
* **Lane direction.** The design describes the lane direction as a sign
  `+1`/`-1`. The code keeps `turn_direction` as the angle itself, 90 or -90
  (`DirectionStaysLateral`).
* **Sensor failures.** The design says a failed sensor read counts as a clear
  path. The code does not catch sensor errors at all, so the model has no
  such path.
* **Stopping the motors.** The design wants the motors stopped on every exit
  path. The code stops them only on `KeyboardInterrupt`, which is the only
  exit the model has.
* **Shared dedup rule.** The design wants one dedup rule, shared. Each server
  carries its own copy of `is_new_discovery`, and `backend.py`'s copy cannot
  run on a non-empty log (see Findings).

## Model

| member | source | states |
|---|---|---|
| Geometry.Mod360 | pi/bot_logic.py:48 | `heading % 360` lands in [0, 360) and differs from its argument by a whole number of turns |
| Geometry.Mod360Unique | bot_logic.py:40 | the remainder is the only value in [0, 360) a whole number of turns away from the argument |
| Geometry.Mod360Identity | bot_logic.py:40 | a heading already in [0, 360) is left unchanged by `% 360` |
| Geometry.Mod360AddLeft | pi/bot.py:139 | normalising the heading before adding a rotation gives the same result as normalising once afterwards |
| Geometry.Mod360TurnBack | bot_logic.py:40 | turning by `a` and then by `-a` restores a normalised heading |
| Geometry.Advance | bot_logic.py:38-43 | the new heading is in [0, 360) and a whole number of turns from old heading + angle; the position moves by `dist` times cos/sin of the NEW heading; no move when `dist` is 0 |
| Geometry.AdvanceStraight | pi/bot_logic.py:46-51 | a move without a turn keeps a normalised heading and goes straight along it |
| Geometry.TurnsCompose | pi/bot_logic.py:48 | two pure turns compose into one turn by the sum of the angles |
| Motors.WheelFor | pi/bot.py:38-44 | duty is `abs(final)`, zero exactly when the drive is zero; `dir1` is 1 exactly for a forward drive and `dir2` is its complement |
| Motors.WheelRoundTrip | bot_logic.py:30-36 | the signed drive can be read back from the duty and the direction pins |
| Motors.BiasedWheel | pi/bot.py:35-40 | a positive bias scales the duty by the bias and never changes the direction pins |
| Motors.TurnDuration | pi/bot.py:76-83 | `abs(target / 90) * magic`: a positive target lasts target/90 times the positive-turn factor, any other target -target/90 times the other factor |
| Motors.TurnDrive | pi/bot_logic.py:73-76 | the positive-turn drive exactly for a strictly positive target; a zero or negative target takes the other drive |
| Sweep.PathClear | pi/bot.py:112-114 | the path is clear exactly when the reading in metres exceeds 0.25, i.e. more than 25 cm |
| Motors.TurnDurationScales | pi/bot_logic.py:63-70 | with non-negative factors a turn never lasts a negative time, a zero target takes no time, and plus or minus 90 takes exactly the factor for its sign |
| TimedSweep.Bot.constructor | pi/bot_logic.py:25-31 | the robot starts at the origin facing 0 with both motors off and no command issued |
| TimedSweep.Bot.MotorControl | pi/bot_logic.py:33-44 | each wheel gets the biased request's duty and direction pins; the command is recorded; the pose is unchanged |
| TimedSweep.Bot.UpdateMap | pi/bot_logic.py:46-51 | the pose becomes `Advance` of the old pose; motors and command history are unchanged |
| TimedSweep.Bot.TurnDegrees | pi/bot_logic.py:63-79 | returns the calibrated duration; issues the turn drive and then a stop; the heading changes by the nominal target without moving |
| TimedSweep.Bot.AreaSearch | pi/bot_logic.py:81-113 | the final pose, direction and command history are those of `Run` over the readings, followed by one `(0, 0)` stop; both wheels end at zero duty |
| TimedSweep.Iteration | pi/bot_logic.py:87-110 | one pass flips `turn_direction` exactly when the reading is a wall, and always leaves the heading in [0, 360) |
| TimedSweep.ClearStepGoesStraight | bot_logic.py:73-77 | a clear reading moves 1.5 cm along the unchanged heading and issues `(0.5, 0.5)` |
| TimedSweep.FourClearStepsFromOrigin | pi/bot_logic.py:89-93 | four clear readings from the origin facing 0 end at (6, 0) facing 0 |
| TimedSweep.ObstacleCycle | bot_logic.py:78-94 | a wall turns the heading twice by the direction; the robot ends 7.5 cm along the heading the first turn reached; the direction flips; the commands are stop, turn, stop, shift, turn, stop |
| TimedSweep.TwoCyclesRestoreHeading | pi/bot_logic.py:94-110 | two walls in a row bring a normalised heading back to its value |
| TimedSweep.DirectionParity | bot_logic.py:67-94 | after any run, `turn_direction` is flipped exactly when an odd number of walls was seen |
| TimedSweep.HeadingStaysNormalized | bot_logic.py:38-43 | however many passes the loop makes, the heading stays in [0, 360) |
| TimedSweep.DirectionStaysLateral | pi/bot_logic.py:83-110 | starting from 90, `turn_direction` only ever holds 90 or -90 |
| PiBotLogic.MotorBias | pi/bot_logic.py:30-44 | the left request is written at 98% duty with unchanged direction pins; the right one is written unscaled |
| PiBotLogic.TurnDrivesOneWheel | pi/bot_logic.py:73-76 | a turn requests 0.42 forward for exactly one wheel, the right one exactly when the target is positive; after the 0.98 bias the left wheel then runs at 0.4116 duty |
| PiBotLogic.TurnDurations | pi/bot_logic.py:61-70 | plus 90 takes 0.94 s, minus 90 takes 0.90 s, 180 takes 1.88 s, 0 takes no time |
| PiBotLogic.NewBot | pi/bot_logic.py:25-31 | the script's robot starts at the origin, motors off, with this script's constants |
| BotLogic.NoBias | bot_logic.py:29-36 | both requests are written unscaled |
| BotLogic.TurnIsPivot | bot_logic.py:59-60 | a turn drives both wheels at 0.6 in opposite directions, the left one forward exactly when the target is positive |
| BotLogic.TurnDurationSymmetric | bot_logic.py:57 | turning either way takes the same time, 0.8 s per quarter turn |
| BotLogic.NewBot | bot_logic.py:24-26 | the script's robot starts at the origin, motors off, with this script's constants |
| PiBot.Gated | pi/bot.py:95 | the gated rate is zero exactly when the rate is below 0.2 in magnitude, and otherwise is the rate itself |
| PiBot.GetGyroZ | pi/bot.py:66-70 | a successful read yields its z rate; a read that raises `OSError` yields 0 |
| PiBot.TurnRotation | pi/bot.py:90-96 | (specification function) the sum of gated rate times `dt` over the passes before the first loop-head reading at or past the duration |
| PiBot.IntegrateRotation | pi/bot.py:86-99 | the gyro loop's `total_rotated` equals `TurnRotation`: it reads exactly the passes whose loop-head clock reading is below the duration |
| PiBot.LaterPassesIgnored | pi/bot.py:90 | once a loop-head reading reaches the duration the loop has ended: nothing after that pass changes `total_rotated` |
| PiBot.QuietTurnRotatesNothing | pi/bot.py:90-96 | samples all below the noise gate (or failed reads) add up to no rotation, however long the turn |
| PiBot.FailedReadAddsNothing | pi/bot.py:66-70 | a pass whose gyro read raises `OSError` counts as a zero rate and adds nothing to the rotation |
| PiBot.DriftStep | pi/bot.py:131-144 | (specification function) one pass of the drift loop: add the gated rotation, then move `7.5 * dt` cm along `(heading + step_rotation) % 360` |
| PiBot.SampleDrift | pi/bot.py:128-144 | one pass of the drift loop adds the gated `gyro_z * dt` to `step_rotation` and moves `7.5 * dt` cm along `(heading + step_rotation) % 360`, exactly one `DriftStep` |
| PiBot.QuietDriftStep | pi/bot.py:131-144 | a sample below the noise gate leaves `step_rotation` unchanged and moves `7.5 * dt` cm along the heading reached so far |
| PiBot.DriftFrom | pi/bot.py:126-144 | (specification function) `DriftStep` applied to every pass before the first loop-head reading at or past the step time |
| PiBot.TrackStraightStep | pi/bot.py:115-147 | the drift loop's `step_rotation`, `step_dx`, `step_dy` equal `DriftFrom` of the samples over 0.2 s from the step's starting heading |
| PiBot.QuietStepIsStraight | pi/bot.py:126-147 | with all samples quiet, the step has no rotation and moves 7.5 cm/s times the `dt`s the loop measured, along the starting heading |
| PiBot.UpdatedPose | pi/bot.py:46-56 | the heading becomes `(heading + angle) % 360`; the position moves by `(dx, dy)` when both are given, otherwise along the new heading |
| PiBot.Bot.constructor | pi/bot.py:25-31 | the robot starts at the origin facing 0 with both motors off and no command issued |
| PiBot.Bot.MotorControl | pi/bot.py:33-44 | each wheel gets the request scaled by 0.96 or 1.00 as duty and direction pins; the command is recorded; the pose is unchanged |
| PiBot.Bot.UpdateMap | pi/bot.py:46-56 | the pose becomes `UpdatedPose` of the old pose; motors and command history are unchanged |
| PiBot.Bot.TurnDegrees | pi/bot.py:75-105 | returns the measured rotation over the calibrated duration; issues the pivot and then a stop; commits the MEASURED rotation to the heading without moving |
| PiBot.Bot.AreaSearch | pi/bot.py:106-171 | the final pose, direction and command history are those of `Run` over the passes, followed by one `(0, 0)` stop; both wheels end at zero duty |
| PiBot.Iteration | pi/bot.py:112-166 | one pass flips `turn_direction` exactly when the reading is a wall, and always leaves the heading in [0, 360) |
| PiBot.QuietClearStepKeepsHeading | pi/bot.py:114-150 | a clear pass whose gyro samples are all quiet keeps the heading and moves straight along it |
| PiBot.ObstacleCycle | pi/bot.py:153-166 | a wall changes the heading by the two measured rotations; the robot ends 7.5 cm along the heading the first measured turn reached; the direction flips; the commands are stop, pivot, stop, shift, pivot, stop |
| PiBot.LaneShiftPivotsAgree | pi/bot.py:73-83 | for plus or minus 90 the pivot requests 0.42 for both wheels in opposite directions, the right one forward exactly for a positive target, for 0.94 s or 0.90 s; the left wheel then runs at 0.4032 duty |
| PiBot.DirectionParity | pi/bot.py:108-166 | after any run, `turn_direction` is flipped exactly when an odd number of walls was seen |
| PiBot.HeadingStaysNormalized | pi/bot.py:46-56 | however many passes the loop makes, the heading stays in [0, 360) |
| PiBot.DirectionStaysLateral | pi/bot.py:106-166 | starting from 90, `turn_direction` only ever holds 90 or -90 |
| Discovery.Upper | backend/backend.py:54 | upper-casing keeps the length, turns every lower-case ASCII letter into its own capital, and changes no other character |
| Discovery.UpperIdempotent | backend/backend.py:45 | upper-casing an upper-case label changes nothing |
| Discovery.UpperIgnoresCase | backend/backend.py:45 | "bottle", "BOTTLE" and "BoTtLe" normalise to the same label |
| Discovery.CloserThanIsDistanceBelow | backend/backend.py:42-45 | the squared-distance test agrees with `sqrt(d2) < threshold` for the true distance |
| Discovery.IsNewDiscovery | backend/backend.py:39-47 | answers True exactly when no logged item has the upper-cased label and lies strictly closer than the threshold |
| Discovery.AppendNewKeepsSeparated | backend/backend.py:57-64 | appending an upper-case detection judged new keeps the log separated and upper case |
| Discovery.EmptyLogAllNew | backend/backend.py:40-47 | with nothing logged, every detection is new |
| Discovery.OtherLabelNeverBlocks | backend/backend.py:45 | an item with another label never makes a detection a duplicate, however close it is |
| Discovery.BoundaryExamples | backend/backend.py:39-47 | with BOTTLE at (10, 10): "bottle" there is a duplicate, 15 away is new, 14.999 away is a duplicate, "cup" there is new |
| Backend.Server.constructor | backend/backend.py:9-14 | the server starts at the origin with an empty log |
| Backend.Server.UpdateLocation | backend/backend.py:21-26 | x, y, h take the reported values, each defaulting to 0; the log is untouched; the status is "ok" |
| Backend.Server.Reset | backend/backend.py:30-36 | pose back to the origin, log emptied, status "reset" |
| Backend.Server.ResourceFound | backend/backend.py:50-67 | status "added" exactly when the upper-cased label is new at the current position, and the item is then appended with the timestamp; otherwise "text mapped" and the log is unchanged; the log stays separated |
| RootBackend.IsNewDiscovery | backend.py:27-35 | as written: answers only on an empty log (True, agreeing with the rule); on any other log raises `NameError` for `math` |
| RootBackend.MissingImportRejectsNewObject | backend.py:27-35 | with BOTTLE logged at the origin, a "cup" at (100, 100) is new under the rule, yet the check raises |
| RootBackend.Server.constructor | backend.py:6-11 | the server starts at the origin with an empty log |
| RootBackend.Server.UpdateLocation | backend.py:19-24 | x, y, h take the reported values, each defaulting to 0; the log is untouched; the status is "ok" |
| RootBackend.Server.ResourceFound | backend.py:38-53 | the first report is logged as "added"; every later one raises `NameError` and leaves the log alone, so the log never exceeds one item |

## Left out

- HTTP transport: the Flask routes, `request.json`, `jsonify` and the error responses are not modelled. A handler's effect on the server state and its `status` string are. A raised exception is a `Failure` value.
- `index` and `get_telemetry`: these only render a page or return the state unchanged.
- The telemetry post in `update_map`: `requests.post` with `round(x, 2)` and the swallowed failure is left out. It never changes the robot's state.
- The `print` logging in every file is left out.
- GPIO and the IMU: gpiozero and the MPU6050 driver are left out. What `motor_control` writes is kept as field values, and the sensor distance and gyro reads are inputs.
- `time.sleep`, `time.time` and the wall clock are left out. The loop-head readings and the measured `dt`s of a sampling loop are independent inputs: the model does not require them to come from one clock that only moves forward. A sampling loop also ends when its samples run out, where the script would keep reading. The timed scripts' sleeps do not change the model's state.
- `datetime.datetime.now()` is a parameter, `now`, of `Backend.Server.ResourceFound`.
- Floating point rounding: floats are reals. For example, Python's `-1e-20 % 360` rounds to 360.0 in floats, while the real remainder is below 360.
- Cosine and sine are uninterpreted. Only `FourClearStepsFromOrigin` assumes their values at 0.
- Discovery.Upper: upper-cases ASCII letters only. Python's `str.upper` also maps other Unicode letters, for example `ß` to `SS`, which changes the length.
- The keyboard interrupt is taken only between passes of the sweep loop. An interrupt in the middle of a pass would leave part of that pass's pose update undone, but the handler's final `(0, 0)` is the same.
- An exception other than `KeyboardInterrupt` (a sensor error in `sensor.distance`) would end `area_search` with the motors still running. Such errors are not modelled.
- `search_phase` is a global that the scripts declare but never read, so it is not modelled.
- Request values that are not numbers or strings (for example `"label": null`, which makes `.upper()` raise) are not modelled. The label is an `Option<string>`, and the coordinates are an `Option<real>`.
- Concurrent requests to the servers are not modelled, and neither is the vision script that filters detections by confidence before reporting them (`backend/vision.py` is not part of this model).
- `frontend/static/js/map.js` (the map drawing) is not part of this model.

## Findings

| source | as written | input that shows it | evidently intended | confidence | as-written member | corrected member |
|---|---|---|---|---|---|---|
| backend.py:30 | `is_new_discovery` calls `math.sqrt` but the file never imports `math`, so with any item logged the first distance raises `NameError` and `resource_found` fails before logging | log holds BOTTLE at (0, 0); a "cup" is reported at (100, 100) | log the cup, since no same-label item is within 15 cm (as `backend/backend.py`, which imports `math`, does) | high, not executed | RootBackend.IsNewDiscovery (shown by RootBackend.MissingImportRejectsNewObject) | Discovery.IsNewDiscovery |
