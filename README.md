# smart-bin lid control, modelled in Dafny

This project models how the smart-bin repository drives the servo-operated lids of a waste bin:

- the two `SmartBin` lid controllers. Each holds four calibrated servos P0..P3, whose offsets are loaded from a persisted configuration file and saved back to it.
- `pick_bin`, which opens and then closes the lid of a classified item's bin.
- the camera loop of `classify_pi.py`, which classifies each frame that was read successfully by the arg-max of the model's scores, prints the label and dispatches it to `pick_bin`.

Hardware is modelled as ordered records of the commands it received:

- a SmartBin keeps a `log` of `Angle(servo, degrees)` commands;
- the bin servos behind `SERVOS` keep a `log` of `ToMax(pin)` / `ToMin(pin)` calls.

The configuration file is a `ConfigFile` object. It holds a key -> number map and can be shared by several controllers, so a value saved by one controller is loaded by the next. Angles are `real`.

Files and modules:

- `robot_hat.dfy` (`RobotHat`): servo command records, the configuration file, and start-up loading of offsets.
- `servo_angles.dfy` (`ServoAngles`): `constrain` and the offset-corrected, sign-inverted command angle. Both controller files define these identically, so they are modelled once.
- `smartbin.dfy` (`SmartBinLids`): the `SmartBin` class of smartbin/smartbin.py.
- `picarx.dfy` (`Picarx`): the `SmartBin` class of picarx/picarx.py.
- `hardware_control.dfy` (`HardwareControl`): `PIN_MAP`, `SERVOS`, `pick_bin`, and lid states.
- `classify_pi.dfy` (`ClassifyPi`): `np.argmax`, label lookup, and the `main` loop. `Loop`/`Run` specify the loop; the method `MainLoop` runs it with `while`, `continue` and `break`.

The camera and the model are inputs to `main`. Each read either failed or produced the model's score vector and the key code `waitKey` returned afterwards. The model takes a finite sequence of reads; the exit `StillRunning` means the loop had not ended by the last read supplied, so the `finally` block has not yet run and the camera is not yet released.

Behaviour of the code worth knowing:

- Calibration drives the servo to the raw new offset. It does not re-apply the current angle with the new offset.
- `main` does not close the lids on exit; it only releases the camera.
- An out-of-range label index raises IndexError. That ends the loop, and the camera is still released.
- In non-debug mode the loop sleeps 0.5 s after every classified frame, whether or not a lid was moved. In debug mode it skips that 0.5 s pause.
- Only the requested angle is clamped to [-180, 180], never the angle sent. A servo with offset 80 asked for -180 is sent 260. Start-up and calibration send raw offsets with no clamp at all.
- Picarx `reset` asks for angle 0. Because `constrain(0) = 0`, each of P2, P1 and P0 receives exactly its offset, whatever that offset is, and P3 is never commanded.

## Model

| member | source | states |
|---|---|---|
| `RobotHat.LookupAfterSet` | smartbin/smartbin.py:59-62 | reading a key that was just written gives the written value; every other key reads as before |
| `RobotHat.ConfigFile.constructor` | smartbin/smartbin.py:51 | the configuration file opens with the entries it already holds |
| `RobotHat.ConfigFile.Get` | smartbin/smartbin.py:59-62 | `get(key, default_value)` returns `Lookup` of the file: the stored value if the key is present, and the default otherwise (so `LookupAfterSet` and `LoadAfterSet` apply to what it returns) |
| `RobotHat.ConfigFile.Set` | smartbin/smartbin.py:70-88 | `set(key, value)` stores value under key and leaves every other entry unchanged |
| `RobotHat.LoadAfterSet` | picarx/picarx.py:55-58 | with distinct keys, saving v under key i changes the loaded offsets at position i to v, and nowhere else |
| `ServoAngles.Constrain` | smartbin/smartbin.py:7-11 | the result lies in [lo, hi] when lo <= hi; it is x when x is in range, lo below the range, and hi above it; it is lo when hi < lo |
| `ServoAngles.ConstrainIdempotent` | picarx/picarx.py:7-11 | clamping an already clamped value changes nothing, for every range including an empty one |
| `ServoAngles.CommandedAngle` | smartbin/smartbin.py:90-104 | the angle sent lies within 180 degrees of the offset; for an in-range request, request + angle == offset; an out-of-range request is sent as offset +/- 180 |
| `ServoAngles.SentAngleNotClamped` | smartbin/smartbin.py:90-104 | the angle sent is not clamped: a request of -180 sends offset + 180, which exceeds 180 exactly when the offset is positive; a request of 180 sends offset - 180, below -180 exactly when the offset is negative; offset 80 with request -180 sends 260 |
| `ServoAngles.CommandedAngleRoundTrip` | picarx/picarx.py:86-100 | requesting an angle and solving for the request that yields a given angle are inverse to each other, in both directions, within the clamp range |
| `ServoAngles.CommandedAngleAntitone` | smartbin/smartbin.py:90-104 | sign inversion: a larger request never produces a larger command |
| `ServoAngles.RequestingOffsetZeroes` | smartbin/smartbin.py:122-127 | requesting the offset itself sends 0 if and only if the offset lies in [-180, 180]; otherwise the clamp residue is sent |
| `ServoAngles.ZeroRequestSendsOffset` | picarx/picarx.py:105-109 | requesting 0 sends exactly the offset, whatever its sign (offset 10 gives 10) |
| `SmartBinLids.KeysDistinct` | smartbin/smartbin.py:59-62 | the four keys `smartbin_servo_p0`..`p3` are distinct |
| `SmartBinLids.LoadDefaults` | smartbin/smartbin.py:59-62 | a key missing from the file loads that servo's default, a present key loads its stored value; an empty configuration file loads offsets 55, 80, -35, 80 |
| `SmartBinLids.CalibrationRoundTrip` | smartbin/smartbin.py:59-88 | after calibrating servo p to v, the next start-up loads v for p and the previous values for the others |
| `SmartBinLids.OpenSendsOffsetMinusOpenAngle` | smartbin/smartbin.py:106-114 | `open(n)` for n in 0..3 sends servo n the angle `-(OPEN_n - cali_n)` with OPEN = 55, 40, 45, 55; for any other n it sends nothing |
| `SmartBinLids.ResetZeroesInRangeServos` | smartbin/smartbin.py:122-127 | reset commands P0, P1, P2, P3 in that order; servo p ends at angle 0 if and only if its offset is within [-180, 180] |
| `SmartBinLids.SmartBin.constructor` | smartbin/smartbin.py:40-68 | offsets are loaded from the file, with defaults for missing keys; then each servo P0..P3 is commanded, in order, to its raw offset |
| `SmartBinLids.SmartBin.Calibrate` | smartbin/smartbin.py:70-88 | only offset p becomes the new value; the file gains `smartbin_servo_pN` := value; servo p is commanded to the raw value |
| `SmartBinLids.SmartBin.SetServoAngle` | smartbin/smartbin.py:90-104 | appends exactly one command, for servo p, with angle `CommandedAngle(value, cali_p)`; offsets and file are unchanged |
| `SmartBinLids.SmartBin.Open` | smartbin/smartbin.py:106-114 | appends the open command for a pin number 0..3 and nothing for any other; offsets and file are unchanged |
| `SmartBinLids.SmartBin.CloseAll` | smartbin/smartbin.py:116-117 | has the same effect as reset |
| `SmartBinLids.SmartBin.Stop` | smartbin/smartbin.py:119-120 | changes nothing |
| `SmartBinLids.SmartBin.Reset` | smartbin/smartbin.py:122-127 | appends the four reset commands, P0 to P3, each requesting its own offset; offsets and file are unchanged |
| `SmartBinLids.CalibrationSurvivesRestart` | smartbin/smartbin.py:40-88 | calibrate then construct a new SmartBin over the same file: the new object holds the calibrated offset |
| `Picarx.KeysDistinct` | picarx/picarx.py:55-58 | the four keys `picarx_servo_p0`..`p3` are distinct |
| `Picarx.LoadDefaultsToZero` | picarx/picarx.py:55-58 | a missing key loads as 0; a present key loads its stored value |
| `Picarx.CalibrationRoundTrip` | picarx/picarx.py:55-84 | after calibrating servo p to v, the next start-up loads v for p and the previous values for the others |
| `Picarx.ResetSendsOffsets` | picarx/picarx.py:105-109 | reset sends P2, P1, P0 in that order, each its own offset, and never commands P3 |
| `Picarx.SmartBin.constructor` | picarx/picarx.py:35-64 | offsets are loaded with default 0; each servo P0..P3 is commanded, in order, to its raw offset |
| `Picarx.SmartBin.Calibrate` | picarx/picarx.py:66-84 | only offset p becomes the new value; the file gains `picarx_servo_pN` := value; servo p is commanded to the raw value |
| `Picarx.SmartBin.SetServoAngle` | picarx/picarx.py:86-100 | appends exactly one command, for servo p, with angle `CommandedAngle(value, cali_p)`; offsets and file are unchanged |
| `Picarx.SmartBin.Stop` | picarx/picarx.py:102-103 | changes nothing |
| `Picarx.SmartBin.Reset` | picarx/picarx.py:105-109 | appends the P2, P1, P0 commands requesting 0; offsets and file are unchanged |
| `HardwareControl.PinMapBindings` | smart-bin/src/hardware_control.py:21-26 | PIN_MAP binds exactly trash->17, recycle->27, compost->22, electronics->23, and no two classes share a pin |
| `HardwareControl.ServosOnePerClass` | smart-bin/src/hardware_control.py:29-32 | SERVOS has exactly PIN_MAP's class names, each with a servo on that class's pin and the 0.5 ms / 2.4 ms pulse widths |
| `HardwareControl.LidAtIgnoresOtherPins` | smart-bin/src/hardware_control.py:39-46 | commands to other pins never change a lid's state |
| `HardwareControl.PickBinTargetsOnlyItsServo` | smart-bin/src/hardware_control.py:39-46 | an unmapped name issues no command; a mapped name issues exactly two, both to its own pin |
| `HardwareControl.PickBinLeavesLidClosed` | smart-bin/src/hardware_control.py:43-46 | after `pick_bin` on a mapped name, that lid is closed whatever its prior state; every other lid is unchanged |
| `HardwareControl.PickBinIdempotent` | smart-bin/src/hardware_control.py:43-46 | two `pick_bin` calls in a row leave every lid in the same state as one |
| `HardwareControl.DispatchSnoc` | smart-bin/src/hardware_control.py:34-46 | one more `pick_bin` call appends exactly that call's commands |
| `HardwareControl.DispatchAppend` | smart-bin/src/hardware_control.py:34-46 | the commands of consecutive runs of `pick_bin` calls concatenate |
| `HardwareControl.DispatchLeavesLidsClosed` | smart-bin/src/hardware_control.py:39-46 | after a series of `pick_bin` calls, every lid some name mapped to is closed, and every other lid is as before |
| `HardwareControl.ServoBank.constructor` | smart-bin/src/hardware_control.py:29-32 | the servos start with no command issued |
| `HardwareControl.ServoBank.PickBin` | smart-bin/src/hardware_control.py:34-46 | the servo log grows by nothing for an unmapped name, and by `max()` then `min()` on its servo for a mapped one |
| `ClassifyPi.Argmax` | smart-bin/src/classify_pi.py:62-63 | the result is an index into a non-empty score vector whose score is >= every score and > every earlier score (numpy's first maximum) |
| `ClassifyPi.FirstMaxIsArgmax` | smart-bin/src/classify_pi.py:63 | an index is the first maximum if and only if it is Argmax's result |
| `ClassifyPi.ClassifyResolvesFirstMax` | smart-bin/src/classify_pi.py:76-77 | a frame gets the label at its first-maximum index when that index is within the label list, and IndexError otherwise |
| `ClassifyPi.QuitKeyLowByte` | smart-bin/src/classify_pi.py:85 | `waitKey(1) & 0xFF == ord('q')` depends only on the key code's low byte (a non-negative remainder modulo 256): 113, 369 and -143 quit; the "no key" code -1, 'Q' (81) and 255 do not |
| `ClassifyPi.Classify` | smart-bin/src/classify_pi.py:76-77 | `predict` then `LABELS[cls_id]`: an empty model output is exactly the ValueError case; a label returned is one of the labels; IndexError needs more scores than labels, so an output no longer than the label list always yields a label |
| `ClassifyPi.Run` | smart-bin/src/classify_pi.py:66-70 | the run ends as camera-unavailable if and only if the camera did not open, and then nothing is reported |
| `ClassifyPi.LoopReportBounds` | smart-bin/src/classify_pi.py:72-88 | at most one label is printed per read; the loop ends on 'q' only in debug mode, only if some successful read carried the 'q' key code, and the last label reported and dispatched is that read's label |
| `ClassifyPi.LoopNeverCameraUnavailable` | smart-bin/src/classify_pi.py:67-70 | only the camera check before the loop can end a run as camera-unavailable |
| `ClassifyPi.LoopAppend` | smart-bin/src/classify_pi.py:72-88 | running the loop over a + b is running it over a and then, if it is still running, over b; after 'q' or an exception, no later read is looked at |
| `ClassifyPi.DroppedReadSkipped` | smart-bin/src/classify_pi.py:73-75 | a failed read anywhere leaves the run exactly as if it were absent: no prediction, no report, no `pick_bin` |
| `ClassifyPi.ReportsAreClassifiedSuccesses` | smart-bin/src/classify_pi.py:72-79 | the i-th printed and dispatched label is `LABELS[argmax]` of the i-th successful read, in order, and there are no more reports than successful reads |
| `ClassifyPi.EverySuccessDispatched` | smart-bin/src/classify_pi.py:72-79 | if no frame faults and no quit occurs, the loop is still running, and the i-th report is the label of the i-th successful read, for every successful read and no more |
| `ClassifyPi.NonDebugNeverQuits` | smart-bin/src/classify_pi.py:81-88 | without debug the loop never ends by a key press |
| `ClassifyPi.LoopEndings` | smart-bin/src/classify_pi.py:77-86 | in debug mode, a frame followed by 'q' is still reported and dispatched, and then the loop ends; an out-of-range index aborts with IndexError before any report, in either mode |
| `ClassifyPi.CompostScenario` | smart-bin/src/classify_pi.py:72-79 | one dropped read, then scores whose maximum is at index 2 of trash/recycle/compost/electronics: "compost" is reported once and lid 22 opens and closes once |
| `ClassifyPi.MainLoop` | smart-bin/src/classify_pi.py:66-92 | the printed labels and the ending are those of `Run`; the servo log grows by the `pick_bin` commands of exactly those labels; the camera is released if and only if it was opened and the loop was left, by 'q' or an exception; a run still looping after the last read has not released it |

## Left out

- Servo hardware, PWM and `utils.reset_mcu`, and the robot_hat `Servo` class's own handling of an angle: the model records the angle passed to `servo.angle(...)`, not what the servo does with it.
- The textual encoding of the configuration file (`"%s" % value` on write, `float(...)` on read), the file path and `os.getlogin`: the file is a map from keys to numbers.
- Floating point: angles and scores are exact reals, with no NaN and no infinity. `np.argmax` treating NaN as the maximum is not modelled.
- `time.sleep` (the 0.2 s start-up pause, the 1 s lid dwell, the 0.5 s loop delay): timing only, no effect on the recorded commands.
- GPIO probing at import time and the stub `Servo`: with or without GPIO, `pick_bin` makes the same calls, and the model records those calls.
- The camera, `preprocess_image`, and the TFLite interpreter (loading, tensors, invocation): a read is its model output. Reading `data/labels.txt` is not modelled; the label list is a parameter.
- The debug overlay (`putText`, `imshow`, `destroyAllWindows`), the printing of messages, and argparse.
- `PERIOD`, `PRESCALER`, `TIMEOUT`, and the grayscale, ultrasonic and motor pin lists: unused by the modelled logic.
- custom_scripts/bin_servos.py is not part of this model: it is a manual demo built from calls already modelled.
- The `__main__` blocks of smartbin.py and picarx.py (construct, sleep, stop).
- `SmartBinLids.SmartBin.Open` takes an integer pin number. Python would also accept a float equal to 0..3, which behaves the same.
- `ClassifyPi.MainLoop`: the endless loop is modelled over a finite sequence of reads. An exception (IndexError or an empty model output) is returned as the `Aborted` ending instead of being raised. An operator interrupt (Ctrl+C, KeyboardInterrupt) is not modelled: it can arrive between the print and `pick_bin`, or during `pick_bin`'s 1 s dwell, leaving a lid open, and it then releases the camera through the `finally` block.
