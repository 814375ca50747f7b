# Motion-input pipeline of the Unity/pose-tracking front end

This project models, in Dafny, how the web front end turns key presses and
camera poses into movement commands for an embedded Unity player, and it
proves properties of that model:

- **Keyboard aggregation** (`Input`, `KeyboardInput`). Eight key flags are
  reduced to a direction in {-1, 0, 1}². The keyboard hook forwards a
  direction only when it differs from the last one forwarded, and it
  suppresses the browser default only for the eight keys.
- **Pose tilt** (`PoseDetection`). A calibration is captured only when all
  three landmarks are confident. The nose tilt is normalised by shoulder
  width and smoothed by an exponential moving average with factor 0.3. It
  is then shaped by `processPoseInput`: a dead zone of 0.1, a gain of 1.5
  and a clamp to [-1, 1].
- **Two older tilt computations.** `LegacyPoseDetector` quantises the tilt
  to its sign beyond 0.15. `MediaPipeTracker` uses fixed divisors 100 and
  50, a clamp, a strict dead zone of 0.1 and a built-in neutral pose; it
  sends two engine messages per frame.
- **Dispatch** (`UnityHook`, `Unity`). The hook remembers the last
  direction sent and forwards a new one only when some axis moved by more
  than 0.05. Once ready, `stopMovement` sends (0, 0) whatever the threshold. Initialisation is
  idempotent. The service drops every send until the engine's "loaded"
  event.

Numbers are `real`. The engine is a `UnityContext` object whose `received`
sequence logs the calls it accepted. A keypoint list is a `seq`, and a
lookup by name returns the first match, as `Array.prototype.find` does.
Stateful pieces are classes whose methods state their new state.
Arithmetic rules are functions, with lemmas relating them.

The model follows the code's own constants and order of steps, including
where they are not what one might expect:

- `processPoseInput` uses a dead zone of 0.1 and a gain of 1.5, rather
  than the 0.08 and 2.0 one might expect.
- `sendMovementToUnity` updates the last-sent state before calling the
  service. The state therefore moves even when the engine call throws.
- A calibration does not reset the smoothing state.

In one place the model follows the intended behaviour rather than the
code: `PoseDetection.PoseDetection.Calibrate` rejects a confident frame
whose shoulders share an x coordinate (zero shoulder width), which the
code accepts. The code's behaviour is kept as `CaptureAsWritten` and shown
under "## Findings".

## Model

| member | source | states |
|---|---|---|
| Types.Score | src/hooks/usePoseDetection.ts:112 | a missing confidence score counts as 0, a present one as itself |
| Types.Find | src/hooks/usePoseDetection.ts:107-109 | a keypoint is returned exactly when one carries the name, and it is the first such keypoint in the list |
| Types.Locate | src/hooks/usePoseDetection.ts:107-111 | the three landmarks are found exactly when each name occurs, and each is the first keypoint with its name |
| Types.ShoulderMid | src/hooks/usePoseDetection.ts:114-115 | the shoulder midpoint is equidistant from both shoulders on each axis |
| Types.ReferenceOf | src/hooks/usePoseDetection.ts:157-164 | the stored width is the horizontal distance between the shoulders, abs(r.x - l.x): non-negative, and zero exactly when the shoulders share an x; the centre is the shoulder midpoint; the nose position is kept |
| Types.ReferenceKeepsOffset | src/hooks/usePoseDetection.ts:117-121 | the nose offset recorded in a reference equals the nose offset of the frame it was taken from |
| Input.KeyOf | src/services/InputService.ts:22 | a recognised code belongs to exactly the key it names; any other code belongs to no key |
| Input.KeyOfCode | src/services/InputService.ts:4-13 | each of the eight keys is recognised by its own code |
| Input.Set | src/services/InputService.ts:23 | the flag of the named key becomes `isPressed` and the other seven are unchanged |
| Input.Axis | src/services/InputService.ts:33-38 | an axis is +1 exactly when only its positive side is held, -1 exactly when only its negative side is held, and otherwise 0 |
| Input.DirectionOf | src/services/InputService.ts:29-38 | x = [Right or D] - [Left or A] and y = [Up or W] - [Down or S], both directions of each case, each component in {-1, 0, 1}, opposing keys cancel |
| Input.TwinKeysOr | src/services/InputService.ts:33-38 | pressing the arrow key whose letter twin is already held (or the reverse) does not change the direction |
| Input.AllReleasedIsNeutral | src/services/InputService.ts:4-13 | the initial key record has every key released and gives (0, 0) |
| Input.InputService.constructor | src/services/InputService.ts:4-13 | a new service starts with all eight keys released |
| Input.InputService.UpdateKeyState | src/services/InputService.ts:21-26 | an unrecognised code changes nothing and notifies nobody; a recognised one sets exactly its flag and notifies once with the recomputed direction |
| Input.InputService.CalculateDirection | src/services/InputService.ts:28-41 | the `-=`/`+=` accumulation yields the direction of the current key flags |
| Input.InputService.GetKeyStates | src/services/InputService.ts:43-45 | the copy agrees with the service's flags on every key |
| Input.Shape | src/services/InputService.ts:49-61 | the output is in [-1, 1]; magnitudes up to and including 0.1 give 0; beyond that the sign is kept, the output is ±1 once 1.5·abs(v) >= 1, and 1.5·v below that |
| Input.ProcessPoseInput | src/services/InputService.ts:47-64 | both components are shaped independently and land in the unit square |
| Input.ShapeMonotone | src/services/InputService.ts:55-61 | a larger input never gives a smaller shaped output |
| Input.ShapeOdd | src/services/InputService.ts:55-61 | shaping treats left and right (up and down) symmetrically |
| KeyboardInput.AppendChange | src/hooks/useKeyboardInput.ts:16-19 | appending a direction that differs from the last one forwarded keeps the forwarded log free of consecutive repeats |
| KeyboardInput.KeyboardInput.constructor | src/hooks/useKeyboardInput.ts:9-10 | the hook starts at (0, 0), with all keys released and nothing forwarded |
| KeyboardInput.KeyboardInput.OnDirectionChange | src/hooks/useKeyboardInput.ts:13-22 | a direction different from the current one becomes current and is forwarded once; an equal one is dropped; the forwarded log never holds two equal directions in a row |
| KeyboardInput.KeyboardInput.HandleKey | src/hooks/useKeyboardInput.ts:24-44 | the default is prevented exactly for an enabled, recognised key; only then is the key flag set, and a direction is forwarded exactly when the computed direction changed; the current direction always equals the direction of the key flags |
| KeyboardInput.KeyboardInput.HandleKeyDown | src/hooks/useKeyboardInput.ts:24-33 | as `HandleKey`, with the key set pressed |
| KeyboardInput.KeyboardInput.HandleKeyUp | src/hooks/useKeyboardInput.ts:35-44 | as `HandleKey`, with the key released |
| Unity.MovementCall | src/services/UnityService.ts:23-24 | a movement call targets `Player.SetMovementDirection` and carries the direction |
| Unity.UnityService.constructor | src/services/UnityService.ts:5 | a new service is not ready and its engine has received nothing |
| Unity.UnityService.OnLoaded | src/services/UnityService.ts:13-16 | the loaded event makes the service ready; no method ever clears the flag |
| Unity.UnityService.SendMovement | src/services/UnityService.ts:19-28 | before readiness no call is made; after it exactly one movement call, unless the engine throws, which is absorbed |
| UnityHook.UnityHook.constructor | src/hooks/useUnity.ts:6-9 | the hook starts not ready, not initialised, without a service, and with (0, 0) as the last direction sent |
| UnityHook.UnityHook.InitializeUnity | src/hooks/useUnity.ts:11-15 | only the first call creates a fresh, not-yet-ready service; later calls change nothing |
| UnityHook.UnityHook.EngineLoaded | src/hooks/useUnity.ts:17-24 | once the engine has loaded, an existing service is ready and the hook mirrors it |
| UnityHook.UnityHook.SendMovementToUnity | src/hooks/useUnity.ts:28-37 | when not ready nothing happens; when ready a direction that moved some axis by more than 0.05 becomes the last-sent state and is sent exactly once, and any other leaves the state unchanged; afterwards the direction is never significant against the state |
| UnityHook.UnityHook.StopMovement | src/hooks/useUnity.ts:39-45 | when ready (0, 0) is sent regardless of the threshold and becomes the last-sent state; otherwise nothing happens |
| PoseDetection.CaptureAsWritten | src/hooks/usePoseDetection.ts:149-164 | a reference is captured exactly when all three landmarks are found with confidence above 0.5, and it is that frame's reference |
| PoseDetection.ZeroWidthCalibrationAccepted | src/hooks/usePoseDetection.ts:154-158 | a confident frame with both shoulders at one x is accepted with a shoulder width of 0 |
| PoseDetection.Capture | src/hooks/usePoseDetection.ts:149-164 | as captured by the code, except that a zero width is rejected: every reference kept has a positive width |
| PoseDetection.RawTilt | src/hooks/usePoseDetection.ts:114-124 | each tilt component times the calibrated shoulder width equals the change of the nose offset since calibration, so the tilt is that change measured in shoulder widths; it is 0 exactly when the offset matches the calibrated one, and positive exactly when it lies further right (down) |
| PoseDetection.RawTiltTranslationInvariant | src/hooks/usePoseDetection.ts:114-124 | moving the whole body in the image leaves the tilt unchanged |
| PoseDetection.FrameTilt | src/hooks/usePoseDetection.ts:106-124 | a frame is admitted exactly when all three landmarks are found with confidence above 0.3 (a missing score counting as 0), and then yields its tilt |
| PoseDetection.CalibrationFrameIsLevel | src/hooks/usePoseDetection.ts:114-124 | the frame a calibration was taken from is admitted and has tilt (0, 0) |
| PoseDetection.Smooth | src/hooks/usePoseDetection.ts:127-129 | one smoothing step closes 30% of the gap to the new tilt and never overshoots it |
| PoseDetection.SmoothBounded | src/hooks/usePoseDetection.ts:128-129 | smoothing keeps any bound both the old and the new value respect |
| PoseDetection.SmoothingConverges | src/hooks/usePoseDetection.ts:127-132 | after n identical frames the gap to the raw tilt is 0.7^n of the original gap, on the same side |
| PoseDetection.Emit | src/hooks/usePoseDetection.ts:135-138 | every emitted direction lies in [-1, 1]² |
| PoseDetection.LevelFramesSettle | src/hooks/usePoseDetection.ts:127-138 | from any smoothed state within [-1, 1], seven level frames bring the emitted direction back to (0, 0) |
| PoseDetection.PoseDetection.constructor | src/hooks/usePoseDetection.ts:103-140 | the hook starts without a calibration, not detecting, with a level smoothing state |
| PoseDetection.PoseDetection.ProcessPose | src/hooks/usePoseDetection.ts:103-140 | without a calibration, or for a rejected frame, nothing is emitted and the smoothing state is kept; otherwise the state is smoothed towards the frame's tilt and its shaped value, inside the unit square, is emitted |
| PoseDetection.PoseDetection.Calibrate | src/hooks/usePoseDetection.ts:142-175 | returns true exactly when the detector and video are ready and the first pose gives a reference with a positive shoulder width; then it is stored and detection starts; otherwise nothing changes; the smoothing state is never touched |
| PoseDetection.PoseDetection.Detect | src/hooks/usePoseDetection.ts:177-191 | nothing happens unless a detector, detection, a calibration, the enable flag, a ready video and a pose are all present; then the first pose is processed |
| PoseDetection.PoseDetection.ToggleDetection | src/hooks/usePoseDetection.ts:193-195 | the detecting flag is inverted |
| LegacyPoseDetector.Quantise | src/components/PoseDetector.tsx:141-154 | each component is in {-1, 0, 1}; with a positive width it is 0 exactly when the offset difference is at most 0.15 widths, and otherwise it is the sign of the difference; with a zero width it is the sign of the difference |
| LegacyPoseDetector.ProcessPose | src/components/PoseDetector.tsx:121-159 | a direction is emitted exactly when all three landmarks are found and a calibration exists, (0, 0) included, and each component is the quantised offset difference |
| LegacyPoseDetector.CalibratedPoseIsNeutral | src/components/PoseDetector.tsx:129-157 | holding the calibrated pose emits (0, 0) |
| LegacyPoseDetector.PoseDetector.constructor | src/components/PoseDetector.tsx:71-99 | the detector starts without a calibration and not detecting |
| LegacyPoseDetector.PoseDetector.Calibrate | src/components/PoseDetector.tsx:71-99 | with the detector and camera ready and a pose whose three landmarks are found, whatever their scores, that reference is stored and detection starts; otherwise nothing changes |
| MediaPipeTracker.ClampAndCut | src/components/MediaPipePoseTracker.tsx:212-235 | the output is in [-1, 1], 0 exactly when the tilt is strictly inside the dead zone (0.1 itself is kept), of the tilt's sign, saturated at ±1, and equal to the tilt in between |
| MediaPipeTracker.ClampAndCutMonotone | src/components/MediaPipePoseTracker.tsx:212-235 | a larger tilt never gives a smaller output |
| MediaPipeTracker.Horizontal | src/components/MediaPipePoseTracker.tsx:211-212 | no horizontal movement exactly within 10 pixels of the reference shoulder difference; full tilt from 100 pixels; proportional in between |
| MediaPipeTracker.Vertical | src/components/MediaPipePoseTracker.tsx:215-218 | no vertical movement exactly within 5 pixels of the reference nose height; full tilt from 50 pixels; proportional in between |
| MediaPipeTracker.FrameTilt | src/components/MediaPipePoseTracker.tsx:185-235 | both axes are in [-1, 1] and never strictly inside the dead zone unless 0; a calibration pose lacking a landmark gives (0, 0) |
| MediaPipeTracker.CalibratedPoseIsStill | src/components/MediaPipePoseTracker.tsx:200-218 | a pose identical to the calibration gives (0, 0) |
| MediaPipeTracker.DefaultPoseIsStill | src/components/MediaPipePoseTracker.tsx:220-229 | without calibration, shoulders 200 apart with the nose 100 above their midpoint give (0, 0) |
| MediaPipeTracker.CalibratedDeadZone | src/components/MediaPipePoseTracker.tsx:207-235 | after calibration, no horizontal movement exactly within 10 pixels of the calibrated shoulder difference, and no vertical movement exactly within 5 pixels of the calibrated nose height |
| MediaPipeTracker.CalibratedTiltValue | src/components/MediaPipePoseTracker.tsx:207-218 | after calibration, outside the dead zone each axis is the change since calibration over 100 (shoulder difference) or 50 (nose height) pixels, saturating at ±1 beyond that |
| MediaPipeTracker.DefaultTiltValue | src/components/MediaPipePoseTracker.tsx:221-235 | without calibration, each axis is 0 exactly inside the 10 or 5 pixel band around the 200/100 neutral pose, the change over 100 or 50 pixels outside it, and ±1 beyond a full tilt |
| MediaPipeTracker.TiltTranslationInvariant | src/components/MediaPipePoseTracker.tsx:192-229 | moving the whole body in the image changes neither axis |
| MediaPipeTracker.TiltMonotone | src/components/MediaPipePoseTracker.tsx:192-235 | a wider shoulder difference never gives a smaller horizontal tilt, and a higher nose never a smaller vertical one |
| MediaPipeTracker.FrameCallsWellFormed | src/components/MediaPipePoseTracker.tsx:241-248 | every value a frame delivers is a `Player` number in [-1, 1], 0 or outside the dead zone, and the horizontal message comes first |
| MediaPipeTracker.PoseTracker.constructor | src/components/MediaPipePoseTracker.tsx:178-182 | the tracker starts unloaded, not calibrating, without a calibration pose, and its engine has received nothing |
| MediaPipeTracker.PoseTracker.OnLoaded | src/components/MediaPipePoseTracker.tsx:61-64 | the loaded event enables sending and touches no calibration state |
| MediaPipeTracker.PoseTracker.CalibratePosition | src/components/MediaPipePoseTracker.tsx:128-129 | calibration is requested for the next frame with a pose |
| MediaPipeTracker.PoseTracker.CalibrationWindowEnds | src/components/MediaPipePoseTracker.tsx:130-132 | the calibration window closes whether or not a pose was captured |
| MediaPipeTracker.PoseTracker.ProcessFrame | src/components/MediaPipePoseTracker.tsx:174-248 | while calibrating, the first pose is stored whole and calibrating ends; nothing is sent unless the engine is loaded and the three landmarks are found; then the tilt against the calibration held before the frame is sent, horizontal then vertical, and a throwing first send skips the second |

## Left out

- Camera and model I/O: TensorFlow, BlazePose and MoveNet set-up, `estimatePoses` and `getUserMedia` are not modelled. The detector's output is a parameter (`poses`). Readiness checks (detector present, `readyState`) are boolean parameters.
- Frame loops and timers: `requestAnimationFrame` and `setTimeout` are not modelled. Each frame is one method call. The `checkUnityReady` polling is collapsed into the single `EngineLoaded` step. The 3-second calibration timer is the separate `CalibrationWindowEnds` step.
- `updateFPS`, canvas drawing, console output and all JSX are not modelled: none of them affects the pipeline's state.
- Serialisation: `JSON.stringify` of a direction is the payload constructor `Json(direction)`; the text itself is not modelled.
- Floating point: numbers are exact reals. IEEE rounding is not modelled. NaN and infinities are not modelled, except in `LegacyPoseDetector.Quantise`, which states the zero-width outcome IEEE division gives there.
- React closures: each handler is modelled as reading the current state. Stale captured values are not modelled. In the MediaPipe component the frame loop is one closure, built when the video loads and rescheduled by `requestAnimationFrame` (MediaPipePoseTracker.tsx lines 119-125, 156-164 and 279); it keeps the `calibrating`, `calibrationPose`, `isUnityLoaded` and `detector` of that render for every later frame, so a calibration requested or an engine loaded after that render never reaches the loop. `MediaPipeTracker.PoseTracker.ProcessFrame` instead reads the tracker's current state at each frame; it only uses the calibration held before the frame, not the one that frame captures. A new `UnityContext` created on each render of the MediaPipe component is not modelled either: the tracker keeps one engine.
- `key in this.keyStates` also accepts names inherited through the object prototype, such as `toString`. The model recognises exactly the eight key codes.
- `setDirectionChangeCallback`: the callback is modelled by `UpdateKeyState` returning the notified direction (`None` when it is not invoked), and the keyboard hook's `onDirectionChange` by its `forwarded` log.
- `getCurrentDirection`, `getUnityContext` and `getIsReady` are plain field reads. They have no members of their own; `getIsReady` is used only through `EngineLoaded`.
- `testUnityConnection` and `useKeyboardControls` in the MediaPipe component are out of this model's scope: they are button handlers outside the frame computation.
- The keypoint `z` coordinate is not modelled: no computation reads it.
- Keyboard and pose directions are not proved to agree on the sign of y. Keyboard up is +y, while pose y grows as the nose moves down in the image, and the code promises no alignment.
- PoseDetection.PoseDetection.Calibrate: rejects a confident frame with zero shoulder width, which the code accepts (storing width 0, starting detection and returning true), because every later tilt would divide by that width; the code's acceptance is `CaptureAsWritten`, shown under "## Findings".
- PoseDetection.PoseDetection.ProcessPose: it divides by the calibrated width, which the corrected `Capture` keeps positive. The behaviour after a zero-width calibration, as the code would run it, is shown only through the finding below.

## Findings

| source | as written | input that shows it | evidently intended | confidence | as-written member | corrected member |
|---|---|---|---|---|---|---|
| src/hooks/usePoseDetection.ts:154-164 | `calibrate` accepts any confident frame and stores `shoulderWidth = abs(r.x - l.x)`, which may be 0; `processPose` then divides every frame's offset by it (lines 123-124); under IEEE division the tilt becomes ±Infinity or NaN, which enters the smoothing state (lines 128-132) that `calibrate` never resets, so the pose output stays at ±1 or 0 for the life of the hook, even after a later good calibration | three keypoints scored 0.9 with both shoulders at x = 100 (`StackedShoulders`) | a calibration with zero shoulder width is rejected like a low-confidence one, so the tilt is always a finite number | not executed | PoseDetection.ZeroWidthCalibrationAccepted | PoseDetection.Capture |
