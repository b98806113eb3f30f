# OpenArm scripts: a Dafny model

The OpenArm module has no library code. It has three Python scripts that drive a pair of
OpenArm arms (right arm on `can0`, left arm on `can1`), each arm with seven joints and a gripper:

- `scripts/move_to_zero.py` brings both arms slowly to hardware zero through the
  low-level `openarm_can` buses. It uses reduced PD gains and 600 ticks of MIT-mode commands.
- `scripts/sync_calibration.py` runs the same zero ramp with constant gains for 300 ticks. It then
  disables and drains both arms and lets the lerobot bimanual robot record the pose as its calibration.
  The lerobot step is `connect(calibrate=False)`, then `calibrate()`, then `disconnect()` in a `finally`.
- `tests/openarm_wave_demo.py` drives the robot through lerobot's action interface. It raises the
  right arm, waves it by swinging joint 6 between `-angle` and `+angle`, and lowers it again.
  Every motion is one `move_smooth` call.

The model abstracts the hardware and both foreign libraries to one log of the calls made on them
(`Devices.Log.events`, one `Event` per call, in call order). A single shared log is what lets
the model state orderings across both arms, and across the hand-over from the CAN buses to lerobot.
Each script is an imperative method that appends to this log. Each method is proved against a pure
function giving the whole trace. The properties the scripts promise are lemmas about those functions.

- `devices.dfy`: the events, the observation/action keys, and the `Log` class that records them.
  - A lerobot key such as `right_joint_3.pos` is the value `PosKey(Right, 2)`.
  - The string spelling is `KeyName`; `KeyNamesDistinct` proves it injective, so nothing is lost.
- `zero_ramp.dfy`: the enable → tick loop → disable/drain sequence both low-level scripts run.
  - The two scripts differ only in a `Profile`: the arm params, the gripper params and the tick count.
- `move_to_zero.dfy` and `sync_calibration.dfy`: the two low-level scripts.
- `wave_demo.dfy`: `move_smooth`, `wave_j6`, `main` and the command-line range checks.
  - `move_smooth` builds its action dictionary key by key in loops, as the script does.
  - The raised-cosine ease is a parameter `ease` with `ease(0) = 0`, `ease(1) = 1` and values in
    `[0, 1]` on `[0, 1]` (`IsEase`).

Floats are modelled as reals. Python's `int()` on a float is truncation toward zero (`Trunc`).
The Python `ZeroDivisionError`s the demo can raise are an `Outcome` of `Fail(ZeroDivision)`:

- at `1.0 / fps` when `fps` is 0;
- at `step / num_steps` on step 0 when `int(duration * fps)` is 0;
- at `wave_angle / speed` when `speed` is 0.

The `ValueError` that `time.sleep` raises for a negative length is `Fail(NegativeSleep)`. In
`move_smooth` it happens when `fps` is negative and the loop has steps: the first action is sent,
then the sleep of `dt = 1.0 / fps` raises. Every call in the demo uses `fps = 60`, so it never raises there.

The model follows what the code does in three places where it departs from the natural reading
of the scripts' intent:

- The step count of `move_smooth` is `int(duration * fps)`, which truncates; it does not round.
- A duration that gives zero steps does not send a single final pose: the call raises
  `ZeroDivisionError` after its observation.
  - A negative step count sends no action at all and does not raise.
- The derivative gains of `move_to_zero.py` are not proportional to the reference gains its comment
  quotes. Only `0 < kd <= reference` holds, and that is what `MoveToZero.KdValues` states.

## Model

| member | source | states |
|---|---|---|
| Devices.Other | tests/openarm_wave_demo.py:46 | the idle arm is never the active arm |
| Devices.KeyNamesDistinct | tests/openarm_wave_demo.py:63-72 | two keys are spelled the same (`{side}_joint_{i}.pos`, `{side}_gripper.pos`) exactly when they are the same side and slot, so keys by side and slot lose nothing |
| Devices.MotorNamesDistinct | tests/openarm_wave_demo.py:52-56 | the eight pose-dictionary keys `joint_1`..`joint_7`, `gripper` are distinct and decode back to their slot |
| Devices.FollowerConfig | scripts/sync_calibration.py:67-69 | lerobot's config gives each side the port of the buses' wiring, can0 right and can1 left; the wave demo's `main` builds the same config |
| Devices.AllKeysCard | tests/openarm_wave_demo.py:63-72 | there are exactly sixteen position keys, eight per arm |
| Devices.Log.Observe | tests/openarm_wave_demo.py:49 | `get_observation()` logs one observation, which reports every motor of both arms |
| Devices.Log.RunCalibration | scripts/sync_calibration.py:79 | `calibrate()` is logged once and either returns or raises |
| ZeroRamp.SendIds | scripts/sync_calibration.py:19 | joint i is sent on id i, for joints 1..7 |
| ZeroRamp.RecvIds | scripts/sync_calibration.py:19-20 | every receive id is its joint's send id plus 0x10 |
| ZeroRamp.OpenAndEnable | scripts/move_to_zero.py:13-39 | opening, motor registration, IGNORE mode, enable, drain and STATE mode append exactly the setup calls, in script order |
| ZeroRamp.OpenBuses | scripts/move_to_zero.py:13-14 | the right arm's bus is opened on can0 and the left arm's on can1, both with CAN FD |
| ZeroRamp.SetUpMotors | scripts/move_to_zero.py:25-28 | one arm gets the seven joint motors and then the gripper motor |
| ZeroRamp.EnableAndReport | scripts/move_to_zero.py:30-39 | both arms are set to IGNORE, enabled, drained, then switched to STATE reporting |
| ZeroRamp.CommandTick | scripts/move_to_zero.py:47-53 | one tick commands right arm, right gripper, left arm, left gripper, then receives right and left |
| ZeroRamp.DisableAndDrain | scripts/move_to_zero.py:57-60 | both arms are disabled, then both are drained with a 1000 ms receive |
| ZeroRamp.Run | scripts/move_to_zero.py:30-60 | the whole ramp appends setup, `p.ticks` ticks and teardown to the log |
| ZeroRamp.TicksAt | scripts/move_to_zero.py:47-53 | the tick region is six calls per tick, the tick pattern repeated |
| ZeroRamp.TraceAt | scripts/move_to_zero.py:30-60 | the ramp is 14 setup calls, 6 per tick, then 4 teardown calls, and gives the call at every index |
| ZeroRamp.SetupEnablesBoth | scripts/move_to_zero.py:32-35 | after the setup both arms are enabled |
| ZeroRamp.EnabledUnaffected | scripts/move_to_zero.py:47-54 | calls that neither enable nor disable an arm leave it as it was |
| ZeroRamp.TicksNoToggle | scripts/move_to_zero.py:47-54 | the tick loop never enables or disables an arm |
| ZeroRamp.CommandEnabled | scripts/move_to_zero.py:32-51 | the arm a motor command goes to is enabled at that point of the log |
| ZeroRamp.CommandsOnlyWhileEnabled | scripts/move_to_zero.py:32-51 | every `mit_control_all` goes to an arm enabled at that moment |
| ZeroRamp.EndsDisabled | scripts/move_to_zero.py:57-60 | the ramp ends with both arms disabled, and no motor command follows any disable |
| ZeroRamp.NoCommandAfterDisable | scripts/move_to_zero.py:57-60 | no motor command comes after a disable |
| ZeroRamp.CommandCountAppend | scripts/move_to_zero.py:47-51 | the motor commands of two stretches of calls add up |
| ZeroRamp.TicksCommandCount | scripts/move_to_zero.py:47-51 | n ticks hold 4n motor commands |
| ZeroRamp.CommandsPerTick | scripts/move_to_zero.py:47-51 | the ramp makes exactly four motor commands per tick and no others |
| ZeroRamp.RampDisabledFirst | scripts/sync_calibration.py:53-56 | whatever follows the ramp, its calls come first, all on the buses, with both arms disabled and the two 1000 ms drains last |
| ZeroRamp.CommandsWithTail | scripts/sync_calibration.py:40-44 | calls after the ramp that are not motor commands add none to its count |
| ZeroRamp.CommandsUseProfile | scripts/move_to_zero.py:41-51 | every motor command carries the one parameter list built before the loop: the arm list for the arm group, the gripper list for the gripper |
| ZeroRamp.OnlyBusCalls | scripts/move_to_zero.py:13-28 | the ramp only calls the buses; each bus is on its arm's port; both arms get the same motor types and ids, and the gripper is a DM4310 on 0x08/0x18 |
| MoveToZero.KpValues | scripts/move_to_zero.py:8-10 | eight proportional gains, each non-negative and between 24% and 26% of the reference gain |
| MoveToZero.KdValues | scripts/move_to_zero.py:8-11 | eight derivative gains, each positive and at most the reference gain |
| MoveToZero.ZeroParams | scripts/move_to_zero.py:41-44 | seven params; param i has `kp_values[i]`, `kd_values[i]`, target 0.0, zero velocity and torque |
| MoveToZero.GripperZero | scripts/move_to_zero.py:45 | one param with the index-7 gains, target 0.0, zero velocity and torque |
| MoveToZero.Run | scripts/move_to_zero.py:41-60 | the script appends the ramp's trace for the tables above and 600 ticks |
| MoveToZero.CommandsTargetZero | scripts/move_to_zero.py:41-51 | every motor command targets 0.0 with zero velocity and torque; joint i gets its own gains, the gripper gets index 7 |
| MoveToZero.SixHundredTicks | scripts/move_to_zero.py:32-60 | 600 ticks and 2400 commands, each to an enabled arm, and both arms disabled at the end |
| SyncCalibration.CalibrationParam | scripts/sync_calibration.py:37-38 | the one param is kp 10, kd 2, target 0.0, zero velocity and torque |
| SyncCalibration.Run | scripts/sync_calibration.py:27-81 | the ramp, then connect without calibration, calibrate and disconnect; a failed calibration is reported only after the disconnect |
| SyncCalibration.BusesDisabledBeforeConnect | scripts/sync_calibration.py:53-75 | every bus call precedes `connect(calibrate=False)`; both arms are disabled and drained with 1000 ms just before it; nothing after it is a bus call |
| SyncCalibration.ConnectAfterRamp | scripts/sync_calibration.py:53-75 | the same for a ramp of any profile followed by the lerobot calls |
| SyncCalibration.DisconnectsOnce | scripts/sync_calibration.py:77-81 | `disconnect()` runs exactly once, last, right after `calibrate()`, whether calibration returns or raises |
| SyncCalibration.DisconnectLast | scripts/sync_calibration.py:77-81 | the same for a ramp of any profile |
| SyncCalibration.SamePortsAsRamp | scripts/sync_calibration.py:67-69 | lerobot's config binds each side to the port that side's bus was opened on (can0 right, can1 left) |
| SyncCalibration.ThreeHundredTicks | scripts/sync_calibration.py:40-47 | the script makes exactly 1200 motor commands, four per tick for 300 ticks |
| SyncCalibration.ConstantGains | scripts/sync_calibration.py:37-44 | every motor command gives each of its motors kp 10, kd 2, target 0.0; seven for the arm, one for the gripper |
| WaveDemo.NamedPosesArePoses | tests/openarm_wave_demo.py:19-40 | `RAISED_POSITION` and `ZERO_POSITION` hold all eight keys `move_smooth` reads |
| WaveDemo.Vector | tests/openarm_wave_demo.py:52-56 | the 8-vector holds joints 1..7 in order, then the gripper |
| WaveDemo.Trunc | tests/openarm_wave_demo.py:44 | `int()` truncates toward zero: the largest integer not above a non-negative value, the smallest not below a negative one |
| WaveDemo.Interpolate | tests/openarm_wave_demo.py:61 | coordinate k is `start[k] + s * (end[k] - start[k])` |
| WaveDemo.CopiedSpec | tests/openarm_wave_demo.py:65-67 | the idle arm's dictionary holds exactly its eight keys, each with the observed value |
| WaveDemo.AssignedSpec | tests/openarm_wave_demo.py:70-72 | the active arm's keys get `pos`, and the idle arm's entries are kept |
| WaveDemo.TickActionSpec | tests/openarm_wave_demo.py:63-72 | an action has exactly the sixteen keys; the idle arm's are observed, the active arm's are `pos`, slot by slot |
| WaveDemo.KeepStill | tests/openarm_wave_demo.py:65-67 | the loop copies the idle arm's seven joints and gripper from the observation |
| WaveDemo.MoveActive | tests/openarm_wave_demo.py:70-72 | the loop sets `joint_{i+1}` to `pos[i]` and the gripper to `pos[7]` |
| WaveDemo.BuildAction | tests/openarm_wave_demo.py:63-72 | one tick's dictionary is built as the tick action |
| WaveDemo.SmoothStepsAt | tests/openarm_wave_demo.py:58-74 | step i of the loop sends the action for the eased fraction `i / num_steps` |
| WaveDemo.MoveSmooth | tests/openarm_wave_demo.py:42-75 | raises ZeroDivisionError exactly when fps is 0 (nothing logged) or `int(duration * fps)` is 0 (only the observation logged); raises ValueError when fps is negative and there are steps (the observation and the first action logged); otherwise one observation, then all its actions |
| WaveDemo.SendSteps | tests/openarm_wave_demo.py:58-75 | the loop sends `num_steps + 1` actions, none when negative, raises on step 0 when `num_steps` is 0, and raises at the sleep after the first action when `dt` is negative |
| WaveDemo.ReciprocalSign | tests/openarm_wave_demo.py:45 | `dt = 1.0 / fps` is negative exactly when fps is |
| WaveDemo.SleepFailsExactly | tests/openarm_wave_demo.py:44-75 | with a negative fps, the move raises at its sleep exactly when `duration * fps` is at least one |
| WaveDemo.NegativeRateRaisesOnSleep | tests/openarm_wave_demo.py:44-75 | `duration = -1.0, fps = -60` gives 60 steps, no division by zero, and a sleep that raises |
| WaveDemo.SendStep | tests/openarm_wave_demo.py:59-74 | one loop pass sends the next step's action |
| WaveDemo.SmoothActionAt | tests/openarm_wave_demo.py:49-72 | every action has the sixteen keys; the idle arm is pinned to the one observation of the call; the active arm is at the eased interpolation |
| WaveDemo.SmoothEndpoints | tests/openarm_wave_demo.py:58-72 | the first action puts the active arm at `start`, the last at `end` |
| WaveDemo.Between | tests/openarm_wave_demo.py:61 | a point a fraction in [0, 1] of the way between two values lies between them |
| WaveDemo.FractionInUnit | tests/openarm_wave_demo.py:58-59 | `step / num_steps` lies in [0, 1] for every step of the loop |
| WaveDemo.ActionWithinBounds | tests/openarm_wave_demo.py:59-72 | action i puts coordinate k of the active arm between its start and end values |
| WaveDemo.SmoothWithinBounds | tests/openarm_wave_demo.py:58-72 | no action overshoots: every active-arm coordinate stays between its start and end values |
| WaveDemo.WaveTargets | tests/openarm_wave_demo.py:92-96 | `wave_left` and `wave_right` equal the base except joint 6, which is `-angle` and `+angle` |
| WaveDemo.SwingsArePoses | tests/openarm_wave_demo.py:100-104 | n waves are 2n segments between poses |
| WaveDemo.SwingsShape | tests/openarm_wave_demo.py:100-104 | wave j is a move to `wave_left` (from the base the first time, from `wave_right` after) then to `wave_right` |
| WaveDemo.SegmentsChain | tests/openarm_wave_demo.py:100-110 | `wave_j6` moves through `2 * num_waves + 1` segments, each starting where the previous ended, the first from the base and the last back to it |
| WaveDemo.WaveSegmentsArePoses | tests/openarm_wave_demo.py:100-110 | the wave's segments are all between poses, one more than two per wave |
| WaveDemo.SegmentRunsLength | tests/openarm_wave_demo.py:100-110 | each segment is one observation and `num_steps + 1` actions |
| WaveDemo.SegmentRunsOnlyMotion | tests/openarm_wave_demo.py:100-110 | consecutive moves only read the robot and send actions |
| WaveDemo.SegmentRunsSnoc | tests/openarm_wave_demo.py:100-110 | running one more segment appends its calls |
| WaveDemo.RecordMove | tests/openarm_wave_demo.py:102-110 | a move that did not raise extends the wave's trace by its segment |
| WaveDemo.RecordWave | tests/openarm_wave_demo.py:100-104 | a wave's two moves extend the trace by its two swings |
| WaveDemo.WaveOnce | tests/openarm_wave_demo.py:101-104 | a wave raises exactly when a half-wave has no steps, and then after its first observation |
| WaveDemo.WaveLoop | tests/openarm_wave_demo.py:100-107 | the loop raises on its first move when a half-wave has no steps, and otherwise runs the swings of every wave |
| WaveDemo.WaveStep | tests/openarm_wave_demo.py:100-104 | one loop pass runs the next two swings or raises after one observation |
| WaveDemo.ReturnToCenter | tests/openarm_wave_demo.py:110 | the last move goes from `wave_right` back to the base, after the swings |
| WaveDemo.WaveJ6 | tests/openarm_wave_demo.py:77-110 | raises exactly when speed is 0 or a half-wave gives no steps at 60 fps; logs the segment chain's moves, or the one observation before the error |
| WaveDemo.NoStepsUnderOneTick | tests/openarm_wave_demo.py:44 | at 60 fps a positive duration gives no steps exactly when it is under one tick |
| WaveDemo.HalfWaveUnderOneTick | tests/openarm_wave_demo.py:89 | a half-wave is under one tick exactly when `60 * angle < speed` |
| WaveDemo.WaveFailsExactly | tests/openarm_wave_demo.py:89-104 | with positive angle and speed, the wave raises exactly when `60 * angle < speed` |
| WaveDemo.CheckArgs | tests/openarm_wave_demo.py:185-190 | accepted exactly when `waves >= 1`, `0 < angle <= 40` and `0 < speed <= 120`; the waves check is reported first |
| WaveDemo.AngleBoundary | tests/openarm_wave_demo.py:187-188 | an angle of 40 is accepted and 0 is rejected |
| WaveDemo.AcceptedArgumentsCanFail | tests/openarm_wave_demo.py:185-190 | the accepted arguments angle 1, speed 120 make the first wave move divide by zero |
| WaveDemo.CurrentPose | tests/openarm_wave_demo.py:137-139 | `current_pos` is a pose with the right arm's reported value under each key |
| WaveDemo.RaiseArm | tests/openarm_wave_demo.py:137-141 | one observation, then the 3 s move from the reported pose to `RAISED_POSITION`, which does not raise |
| WaveDemo.WaveAndLower | tests/openarm_wave_demo.py:146-151 | the wave, then the 3 s move to `ZERO_POSITION` only if the wave did not raise |
| WaveDemo.DemoTry | tests/openarm_wave_demo.py:134-151 | the `try` block logs read, raise, wave and lower, and its outcome is the wave's |
| WaveDemo.Demo | tests/openarm_wave_demo.py:128-164 | `main` connects, runs the `try` block and disconnects in `finally` whether or not the wave raised |
| WaveDemo.MoveTraceOnlyMotion | tests/openarm_wave_demo.py:49-74 | a `move_smooth` call only reads the robot and sends actions |
| WaveDemo.WaveTraceOnlyMotion | tests/openarm_wave_demo.py:100-110 | `wave_j6` only reads the robot and sends actions |
| WaveDemo.DemoBodyOnlyMotion | tests/openarm_wave_demo.py:134-151 | the `try` block only reads the robot and sends actions |
| WaveDemo.DemoDisconnectsOnce | tests/openarm_wave_demo.py:130-163 | `main` connects first and disconnects exactly once, last; everything between only reads and sends actions |
| WaveDemo.ThreeSecondMoves | tests/openarm_wave_demo.py:141 | the raise and the lowering take `int(3.0 * 60)` = 180 steps and raise neither error |

## Left out

- `time.sleep` pacing is not modelled: the `dt` sleep per tick, the `1/60` s sleep per ramp tick, and the 0.5 s sleeps. A verifier cannot express wall-clock timing.
  - The `ValueError` of a negative sleep length is modelled (`Fail(NegativeSleep)`); only the waiting itself is left out.
- `print` output and the argparse machinery are not modelled: the parser, its defaults and `parser.error` exiting. `CheckArgs` returns the message instead of exiting.
- The `except KeyboardInterrupt` clause of `main` is not modelled. The signal is asynchronous.
  - The model covers the exception `main` can raise itself, the `ZeroDivisionError` of the wave, which propagates after `disconnect()`.
- The raised-cosine ease `0.5 - 0.5 * cos(t * pi)` and numpy's float arithmetic are not modelled. The ease is a parameter with the three properties above, and floats are reals.
- Floats that are not reals are not modelled: NaN and infinities. argparse's `type=float` accepts `nan`, which fails every comparison in the range checks and so is accepted. `int(nan * 60)` then raises `ValueError`. `CheckArgs` works on reals and cannot express this input.
- The internals of `openarm_can` and lerobot are not modelled: CAN transport, what `recv_all` reads, and what `calibrate()` persists.
  - Their calls are log events. A failure of `connect()` or of a bus call is not modelled.
- Closing the low-level buses is not modelled. `sync_calibration.py` never closes its two `OpenArm` handles: both CAN sessions stay open while lerobot connects. The model has no close event, and its lemmas promise only that both arms are disabled and drained first.
- Teardown on interruption of the two low-level scripts is not modelled. Neither script wraps its loop in `try`/`finally`.
- Devices.Log.Observe: an observation is assumed to report all sixteen motor positions, as lerobot's `get_observation()` does for this robot. A missing key (a Python `KeyError`) is not modelled.
- WaveDemo.WaveAndLower: when the wave raises, no lowering is run; its ghost observation is then a placeholder that appears in no call.
- MoveToZero.KdValues: states only that each derivative gain is positive and at most its reference. The script's comment says the gains are reduced proportionally, but the table's values are not proportional.
- The demo's `arm` argument is a `Side`. The script only passes `'right'`, and its `other_arm` expression maps any other string to `'right'`.
