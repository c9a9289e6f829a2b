# Override controllers of a donkeycar vehicle, modelled in Dafny

This project models three small controllers from the vehicle's parts folder.
Each one sits between the autopilot and the actuators. It may replace the
throttle, steering ("angle") or brake that the autopilot commands. The mode
string `"local"` means that the autopilot drives (`Parts.Autopilot`).

- `Recovery` (`donkeycar/parts/stuckrecovery.py`) is the stuck-recovery state
  machine. State 1 detects a stop, state 2 detects being stuck, and state 3
  recovers. It keeps a list of at most 20 recent headings. While recovering, it
  reverses at a fixed throttle and steers fully to one side. The side comes
  from the sign of the angle between the circular mean of recent headings and
  the current yaw.
- `Launch` (`donkeycar/parts/launch.py`) holds `AiLaunch` and `AiCatapult`.
  These are one-shot timed throttle boosts. They are armed explicitly, or by
  switching into autopilot mode when `keep_enabled` is set. A boost holds for
  the launch duration and then disarms.
- `Avoidance` (`donkeycar/parts/obstacleavoidance.py`) is a stateless rule. It
  looks at the first lidar reading, the throttle and the speed.

The files are organised as follows:
- `parts.dfy` holds the shared drive command, its declared ranges and the mode
  constant.
- Each controller has a value-level specification: `Recovery.Step` and
  `Launch.Advance`. They give the new state and the output of one call.
- Each class method `Run` mutates the fields step by step, as the source does.
  Its `ensures` ties the new fields and the result to that specification.
- Lemmas about the specification functions state the behaviour promised per
  state and over sequences of ticks.

Time is an input. Every call to `time.time()` inside one `run` reads the same
`now: real` parameter, and the constructors take the creation time the same
way. Speeds, throttles and angles are `real`.

Python's `%` on floats with divisor 360 is modelled as `Recovery.Mod360` using
`Floor`. Its result lies in [0, 360).

The circular mean `mean_angle` needs `cos`, `sin` and `atan2`. It is the
function-typed parameter `meanAngle` of the recovery configuration. The ghost
predicate `Recovery.IsMeanAngle` keeps only two of the facts that the code
fixes: the mean of no headings is 0, and every result lies in [0, 360).

The constructors keep the source's default arguments: 2.2 s recovery, -0.5
recovery throttle and 0.5 s stuck duration for `StuckRecovery`; 1.0 s
duration, 1.0 launch throttle, `keep_enabled` false and `lock_angle` false
for the launch classes.

Some behaviour of the code is easy to misread; the model follows the code as
written:
- Headings are sampled only in state 1
  (`donkeycar/parts/stuckrecovery.py:60`).
- The 0.5 s recovery extension can repeat with no limit. Each check after
  expiry with an error above 45 degrees grants another one
  (`donkeycar/parts/stuckrecovery.py:120-123`).
- The heading difference lies in [-180, 180).
- With `lock_angle`, `AiCatapult` zeroes the steering but does not boost the
  throttle (`donkeycar/parts/launch.py:97-100`).
- Obstacle avoidance is live only for its first-reading rule. The
  proximity-based steering and the mode check come after an unconditional
  return, so they never run.

## Model

| member | source | states |
|---|---|---|
| `Recovery.Mod360` | donkeycar/parts/stuckrecovery.py:37 | The float `% 360` lies in [0, 360) and differs from its argument by a whole multiple of 360. |
| `Recovery.DiffAngle` | donkeycar/parts/stuckrecovery.py:35-41 | `diff_angle` lies in [-180, 180) and is congruent to `curr - prev` modulo 360. The `< -180` branch can never be taken. |
| `Recovery.DiffAngleUnique` | donkeycar/parts/stuckrecovery.py:35-41 | `diff_angle` is the only value in [-180, 180) that is congruent to `curr - prev`. |
| `Recovery.DiffAngleSelf` | donkeycar/parts/stuckrecovery.py:35-41 | `diff_angle(a, a) == 0`. |
| `Recovery.DiffAngleAntisymmetric` | donkeycar/parts/stuckrecovery.py:35-41 | Swapping the arguments negates the difference, except when the difference is -180. |
| `Recovery.WindowMean` | donkeycar/parts/stuckrecovery.py:27-33 | Under `IsMeanAngle` (the mean of no headings is 0; every mean lies in [0, 360)), the mean the error is measured from lies in [0, 360), and it is 0 while at most one heading is kept. |
| `Recovery.DetectIsStop` | donkeycar/parts/stuckrecovery.py:112-114 | A reading counts as stopped exactly when speed < 0.5. A stopped reading is never fast enough to be sampled. |
| `Recovery.RecentWindow` | donkeycar/parts/stuckrecovery.py:44 | `directions[-10:-1]` has at most 9 entries. It is the run of entries that ends just before the newest one. |
| `Recovery.ErrorAngle` | donkeycar/parts/stuckrecovery.py:43-44 | The heading error lies in [-180, 180). It is congruent to the yaw minus the mean of the recent window. |
| `Recovery.RecoveryDirection` | donkeycar/parts/stuckrecovery.py:46-49 | The recovery steering is 1 or -1. It is 1 exactly when the heading error is >= 0. |
| `Recovery.RecoveryOutput` | donkeycar/parts/stuckrecovery.py:102-110 | The recovery command is the recovery throttle, steering of ±1 that follows the sign of the error, and brake 0. |
| `Recovery.ShortHistorySteering` | donkeycar/parts/stuckrecovery.py:27-29 | With fewer than two headings, the mean of the empty window is 0, so the steering side follows `diff_angle(0, yaw)`. |
| `Recovery.Sample` | donkeycar/parts/stuckrecovery.py:57-66 | When a sample is due (0.25 s elapsed, throttle > 0, speed > 10, state 1), the yaw becomes the newest heading. The list keeps its newest 20 entries and the save time becomes `now`. Otherwise nothing changes. |
| `Recovery.Step` | donkeycar/parts/stuckrecovery.py:51-100 | One `run` keeps the state in {1, 2, 3} and the heading list within 20 entries. It returns the input, the neutral `(0, 0, 1)` command, or the recovery command. |
| `Recovery.PassThroughOutsideAutopilot` | donkeycar/parts/stuckrecovery.py:57-70 | Outside `"local"` the command passes through. The state and both timers are unchanged, and only the heading sampling applies. |
| `Recovery.SamplingConditions` | donkeycar/parts/stuckrecovery.py:58-63 | The heading list and the save time change only in state 1, with throttle > 0, speed > 10 and at least 0.25 s since the last save. |
| `Recovery.DetectingStop` | donkeycar/parts/stuckrecovery.py:72-77 | State 1 always passes the command through. It moves to state 2 with `stuck_start = now` exactly when speed < 0.5. |
| `Recovery.DetectingStuck` | donkeycar/parts/stuckrecovery.py:79-91 | State 2 returns to state 1 when moving. Once stopped for longer than the stuck duration, it enters state 3 with `timer_start = now` and emits the recovery command. Otherwise it waits and passes the command through. |
| `Recovery.Recovering` | donkeycar/parts/stuckrecovery.py:93-100 | State 3 keeps recovering within the duration. Past it, an error above 45 degrees leaves exactly 0.5 s more. Otherwise it returns to state 1 with `(0, 0, 1)`. |
| `Recovery.ExtensionLastsHalfSecond` | donkeycar/parts/stuckrecovery.py:116-123 | After an extension, every autopilot tick in the next 0.5 s still recovers. |
| `Recovery.StepKeepsRange` | donkeycar/parts/stuckrecovery.py:51-110 | A well-formed input command and a recovery throttle in [-1, 1] give a well-formed output command. |
| `Recovery.Replay` | donkeycar/parts/stuckrecovery.py:19 | After any sequence of calls, the state is in {1, 2, 3} and at most 20 headings are kept. |
| `Recovery.StuckStartsRecovery` | donkeycar/parts/stuckrecovery.py:79-86 | In state 2, stopped autopilot ticks wait until the stuck duration has passed. The first tick past it starts a recovery at that tick's time. |
| `Recovery.SustainedStopStartsRecovery` | donkeycar/parts/stuckrecovery.py:72-86 | From state 1, a stop that lasts longer than the stuck duration in autopilot mode ends in state 3. |
| `Recovery.StuckRecovery.constructor` | donkeycar/parts/stuckrecovery.py:10-24 | A new controller is in state 1 with no headings, no timers and the creation time as the last save time. The defaults are 2.2, -0.5 and 0.5. |
| `Recovery.StuckRecovery.Run` | donkeycar/parts/stuckrecovery.py:51-100 | The field updates and the result are exactly `Step`, and the object invariant holds afterwards. |
| `Recovery.StuckRecovery.MaintainRecovery` | donkeycar/parts/stuckrecovery.py:116-125 | It returns true within the duration, or past it when the error exceeds 45. In the latter case it sets `timer_start = now - duration + 0.5`. |
| `Recovery.StuckRecovery.StartRecovery` | donkeycar/parts/stuckrecovery.py:127-130 | It sets state 3 and `timer_start = now`. |
| `Recovery.StuckRecovery.FinishRecovery` | donkeycar/parts/stuckrecovery.py:132-134 | It sets state 1. |
| `Recovery.StuckRecovery.StartDetectingStuck` | donkeycar/parts/stuckrecovery.py:136-138 | It sets state 2 and `stuck_start = now`. |
| `Recovery.StuckRecovery.MaintainDetectingStuck` | donkeycar/parts/stuckrecovery.py:140-142 | True exactly when more than the stuck duration has passed since `stuck_start`. In state 2, for every autopilot reading below the stop speed, that is exactly when the tick moves to state 3. |
| `Recovery.StuckRecovery.FinishDetectingStuck` | donkeycar/parts/stuckrecovery.py:144-145 | It sets state 1. |
| `Launch.Arm` | donkeycar/parts/launch.py:20-22 | `enable_ai_launch` sets `enabled` and changes no other field. It keeps `active ⇒ enabled`. |
| `Launch.ArmIdempotent` | donkeycar/parts/launch.py:20-22 | Arming twice is the same as arming once. |
| `Launch.Advance` | donkeycar/parts/launch.py:24-43 | One `run` keeps `active ⇒ enabled` and leaves `prev_mode` equal to the mode passed in. `enabled` is cleared only together with an active boost. Outside `"local"` it clears `active` and leaves `enabled` untouched. `enabled` rises only on a switch into `"local"` with `trigger_on_switch` set. |
| `Launch.LaunchOutput` | donkeycar/parts/launch.py:44-48 | `AiLaunch.run` returns the launch throttle while active, and the input throttle otherwise. |
| `Launch.CatapultOutput` | donkeycar/parts/launch.py:96-102 | `AiCatapult.run` returns `(ai_throttle, 0)` when active with `lock_angle`, and `(launch_throttle, ai_angle)` when active without it. Otherwise it returns the input pair. |
| `Launch.SwitchArms` | donkeycar/parts/launch.py:27-35 | With trigger-on-switch set, a switch into `"local"` arms and starts the boost at `now`. |
| `Launch.RepeatedModeDoesNotArm` | donkeycar/parts/launch.py:27-30 | Repeating the previous mode never sets `enabled`. |
| `Launch.PassThroughOutsideAutopilot` | donkeycar/parts/launch.py:41-42 | Outside `"local"` both classes pass their inputs through. `active` is false and `enabled` is kept. |
| `Launch.FirstArmedTickBoosts` | donkeycar/parts/launch.py:32-35 | The first armed `"local"` tick becomes active with `timer_start = now` and returns the launch throttle. |
| `Launch.ExpiryDisarms` | donkeycar/parts/launch.py:36-40 | The first `"local"` tick past the duration clears `active` and `enabled`, and returns the input throttle. |
| `Launch.OutputKeepsRange` | donkeycar/parts/launch.py:24-48 | Inputs and a launch throttle in [-1, 1] give outputs in [-1, 1]. |
| `Launch.Throttles` | donkeycar/parts/launch.py:24-48 | Running `AiLaunch` over a sequence of ticks gives one throttle per tick. Each throttle is either that tick's input throttle or the launch throttle. |
| `Launch.StaysDisarmed` | donkeycar/parts/launch.py:27-42 | Once disarmed in `"local"`, later `"local"` ticks always pass the throttle through. |
| `Launch.NoTriggerStaysDisarmed` | donkeycar/parts/launch.py:27-42 | Without `trigger_on_switch`, a disarmed launcher passes every throttle through over any sequence of modes. |
| `Launch.BoostPhase` | donkeycar/parts/launch.py:32-46 | A boost that started at `t0` boosts exactly on the ticks no later than the duration after `t0`. |
| `Launch.BoostLastsDuration` | donkeycar/parts/launch.py:24-48 | An armed launcher in `"local"` boosts on exactly the ticks within the launch duration of the first one. Every later tick passes through. |
| `Launch.AiLaunch.constructor` | donkeycar/parts/launch.py:11-18 | Inactive, disarmed, no timer and no previous mode. The defaults are 1.0, 1.0 and false. |
| `Launch.AiLaunch.EnableAiLaunch` | donkeycar/parts/launch.py:20-22 | The fields become `Arm` of the old fields. |
| `Launch.AiLaunch.Run` | donkeycar/parts/launch.py:24-48 | The fields become `Advance` of the old fields, and the result is `LaunchOutput`. |
| `Launch.AiCatapult.constructor` | donkeycar/parts/launch.py:56-64 | Inactive, disarmed, no timer and no previous mode. `lock_angle` is recorded. The defaults are 1.0, 1.0, false and false. |
| `Launch.AiCatapult.EnableAiLaunch` | donkeycar/parts/launch.py:66-68 | The fields become `Arm` of the old fields. |
| `Launch.AiCatapult.Run` | donkeycar/parts/launch.py:70-102 | The fields become `Advance` of the old fields, and the result is `CatapultOutput`. |
| `Avoidance.Run` | donkeycar/parts/obstacleavoidance.py:14-30 | The steering is never changed. The result is `(-1, angle, 1)` when `lidar[0] != -1`, throttle >= 1 and speed >= 1. Otherwise the input passes through. |
| `Avoidance.ModeIrrelevant` | donkeycar/parts/obstacleavoidance.py:14-30 | The live rule does not depend on the mode. The mode check comes after an unconditional return. |
| `Avoidance.RunKeepsRange` | donkeycar/parts/obstacleavoidance.py:14-30 | A well-formed input command gives a well-formed output command. |
| `Avoidance.Nearest` | donkeycar/parts/obstacleavoidance.py:36-41 | The scan yields the first smallest reading below 100 and its index. It yields `(-1, 100)` when no reading is below 100. |
| `Avoidance.ScanMinimum` | donkeycar/parts/obstacleavoidance.py:36-41 | The loop computes exactly `Nearest` of the scan. |
| `Avoidance.Alfa` | donkeycar/parts/obstacleavoidance.py:52-56 | The proximity factor lies in (0, 1]. It is 1 below 1.5 and falls linearly to 0 at 4.5. |
| `Avoidance.AlfaAntitone` | donkeycar/parts/obstacleavoidance.py:52-56 | A nearer obstacle never gives a smaller proximity factor. |
| `Avoidance.Clamp` | donkeycar/parts/obstacleavoidance.py:68-71 | Values above 1 become 1, values below -1 become -1, and values in [-1, 1] are kept. |
| `Avoidance.ProximityOutput` | donkeycar/parts/obstacleavoidance.py:43-91 | The throttle is always kept. For an obstacle closer than 4.5, the brake becomes 0 and the steering moves away from the obstacle's half of the scan, within [-1, 1]. For an in-range input the steering moves by at most half the proximity factor, and by exactly that much when no clamping applies. When the shifted steering leaves [-1, 1] it saturates at the nearer bound. Otherwise the input passes through. |
| `Avoidance.CloseObstacleFullDeflection` | donkeycar/parts/obstacleavoidance.py:52-67 | Below the close distance, the steering moves by the full 0.5. |
| `Avoidance.AvoidByProximity` | donkeycar/parts/obstacleavoidance.py:32-91 | The unreachable tail returns `ProximityOutput` of the nearest reading. `Run` never calls it. |

## Left out

- Logging, `print` and the `datetime.now()` inside log messages. They have no
  effect on outputs.
- `time.time()` is an input parameter `now`. Calls in one `run` that the source
  makes separately read the same instant.
- Floating-point rounding: all numbers are `real`.
- The trigonometry of `mean_angle` (`cmath.rect`, `phase`, `math.radians`,
  `math.degrees`) is not modelled. The model keeps only the two facts in
  `Recovery.IsMeanAngle`. Facts that need the trigonometry, such as the mean
  of 350 and 10 being 0, cannot be proved here.
- `Avoidance.Run` requires a non-empty lidar scan. For an empty scan the
  source raises an `IndexError` at `lidar[0]`; that error path is not modelled.
- The unused inputs `pos_x`, `pos_y`, `pos_z` and `car[0..1]` are not
  modelled. `Run` takes the yaw `car[2]` directly.
- The unused `recovery_angle` field (default 0.0) and the unused `input_angle` argument of
  `get_recovery_output` are not modelled.
- In the unreachable obstacle-avoidance tail, the code computes a clamped
  `new_throttle` and zeroes a speed below 0.1. Neither value is ever used, so
  they are not modelled. `AvoidByProximity` ignores speed and mode, which
  cannot change its result.
- No composition of the three controllers into one pipeline appears in the
  source, so none is modelled.
- `donkeycar/pipeline/augmentations.py` (image augmentation over external
  libraries) and `donkeycar/parts/dgym.py` (simulator wrapper, threads,
  sleeps, files) are not part of this model.
