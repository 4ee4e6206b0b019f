# Golf swing analyzer — verified model of the swing classifier and camera geometry

The app watches a golfer through the phone camera and runs a pose detector on
every frame. This project models the deterministic core around that
detector, in Dafny:

- **The swing-phase classifier.** `SwingDetectorProcessor` exists in two near-identical copies: the current `com.golfapp.swingly` one and the older `com.example.golfswinganalyzer` one.
  - **Per frame:** it gates on landmark confidence, averages the wrists and hips, and advances the phase NOT_ENGAGED → READY → BACK_SWING → DOWN_SWING → FOLLOW_THROUGH. It tracks the extreme hand positions, captures poses into per-phase buffers, stamps phase times and, after the follow-through, schedules a deferred reset.
  - **Pure model:** `SwingClassifier` is a state machine over `Tracker` values. Its properties are proved in `SwingClassifierProofs`.
  - **Imperative class:** the class `SwingDetectorProcessor.SwingDetectorProcessor` has the source's mutable fields. Every method ensures that the fields, read back as a `Tracker`, equal the pure model applied to their old values, and that the ghost callback log grows by the model's callbacks.
  - **The two copies:** they are one model with a `Variant` flag. Only the older copy calls `onPhaseProcessed`, once for each analysed frame that ends in READY, BACK_SWING, DOWN_SWING or FOLLOW_THROUGH; and only its deferred task dereferences the swing with `!!`.
- **The phase buffers** (`dao/Swing.kt`, both copies). These are `SwingPhaseData` (an append-only pose list with a start and end time), `FullSwing` (three buffers) and the `SwingPhase` enumeration.
- **Camera geometry** (`Camera2Source.kt`): the preview and video size choice, the orientation tables, the swapped-dimension rule and the rotation values handed to the detector.
- **The aspect-fit view** (`AutoFitTextureView.kt`): the stored ratio and the measured size.
- **Frame-buffer helpers** (`ImageUtils.kt`): quarter-resolution luma subsampling, size-list conversion and NV21 assembly from image planes.

Inputs the program reads from the platform become parameters:

- the detected pose, as a `PoseFrame`: all landmarks with their in-frame likelihood, plus both wrists and both hips;
- the clock (`now`);
- the sensor orientation reported by the camera characteristics;
- the view and screen sizes;
- the bytes remaining in each image plane.

The `Timer` that resets the processor 1.5 s after a follow-through becomes the explicit step `TimerFires`. A ghost counter `pendingTimers` records how many such tasks are scheduled and not yet run.

Kotlin's `Int` division and remainder truncate toward zero. They are written out as `Camera.Quot` and `Camera.Rem` wherever an operand may be negative. Where both operands are non-negative, Dafny's `/` is used directly, because it agrees with Kotlin there.

## Model

| member | source | states |
|---|---|---|
| `Swing.Ordinal` | app/src/main/java/com/golfapp/swingly/dao/Swing.kt:39-45 | each phase has a position below 5 in declaration order; only NOT_ENGAGED is at 0 |
| `Swing.Next` | app/src/main/java/com/example/golfswinganalyzer/dao/Swing.kt:35-41 | the successor of a phase is the phase one position later in declaration order |
| `Swing.Appended` | app/src/main/java/com/example/golfswinganalyzer/dao/Swing.kt:16-20 | after one capture a buffer has exactly one more pose, wrapping the given pose, at the end; earlier poses and both times are kept |
| `Swing.SwingPhaseData.constructor` | app/src/main/java/com/golfapp/swingly/dao/Swing.kt:14-17 | a new buffer has start and end time 0 and no poses |
| `Swing.SwingPhaseData.AddPose` | app/src/main/java/com/golfapp/swingly/dao/Swing.kt:19-23 | appends one position wrapping the pose at the end, keeps both times; the buffer's value is `Appended` of its old value |
| `Swing.SwingPhaseData.GetPoses` | app/src/main/java/com/golfapp/swingly/dao/Swing.kt:25-29 | returns the positions in insertion order and changes nothing |
| `Swing.SnapshotSurvivesAddPose` | app/src/main/java/com/example/golfswinganalyzer/dao/Swing.kt:22-26 | a list obtained from `getPoses` keeps its contents across a later `addPose`, while the buffer grows by the new pose |
| `Swing.FullSwing.constructor` | app/src/main/java/com/golfapp/swingly/dao/Swing.kt:33-37 | a new swing holds three distinct, newly allocated, empty buffers |
| `Pose.HandPosition` | app/src/main/java/com/golfapp/swingly/mlkit/SwingDetectorProcessor.kt:105-108 | the hand position is the midpoint of the two wrists |
| `Pose.HipHeight` | app/src/main/java/com/example/golfswinganalyzer/mlkit/SwingDetectorProcessor.kt:117-118 | the hip height is the midpoint of the two hips' heights |
| `Pose.DrawablePointsCoverTrackedLandmarks` | app/src/main/java/com/example/golfswinganalyzer/constants/PoseConstants.kt:9-25 | the gated landmark set (`Pose.DrawablePoints`) contains both wrists and both hips, which the classifier reads; it contains no ear, mouth, finger, heel or toe landmark |
| `SwingClassifier.Initial` | app/src/main/java/com/golfapp/swingly/mlkit/SwingDetectorProcessor.kt:44-60 | the field initialisers: NOT_ENGAGED, no swing, no pending timer, and the classifier invariant holds |
| `SwingClassifier.ResetPositions` | app/src/main/java/com/golfapp/swingly/mlkit/SwingDetectorProcessor.kt:244-253 | every field returns to its initial value except `previousSwingPhase` and `maxJiggle` (and the pending timers); the invariant is preserved |
| `SwingClassifier.ProgressSwingPhase` | app/src/main/java/com/golfapp/swingly/mlkit/SwingDetectorProcessor.kt:167-221 | the phase stays or moves exactly one step forward; a resting frame decrements the counter and any other frame sets it to 10; READY is entered iff the frame rests with the counter at 1; BACK_SWING is entered iff in READY the hand rose above `lowestHandVal` by at least 5; DOWN_SWING iff in BACK_SWING it dropped below `highestHandVal` by at least 5; FOLLOW_THROUGH iff in DOWN_SWING the hand did not descend |
| `SwingClassifier.ProgressKeepsSwingHeld` | app/src/main/java/com/golfapp/swingly/mlkit/SwingDetectorProcessor.kt:122-130 | the frame can only end in BACK_SWING, DOWN_SWING or FOLLOW_THROUGH while a swing is held, so the `!!` dereferences cannot fail |
| `SwingClassifier.IsBackSwingStarted` | app/src/main/java/com/golfapp/swingly/mlkit/SwingDetectorProcessor.kt:202-208 | true exactly in READY when the hand is at least the change buffer (5) above `lowestHandVal` |
| `SwingClassifier.IsDownSwingStarted` | app/src/main/java/com/golfapp/swingly/mlkit/SwingDetectorProcessor.kt:210-216 | true exactly in BACK_SWING when the hand is at least the change buffer below `highestHandVal` |
| `SwingClassifier.IsFollowThroughStarted` | app/src/main/java/com/golfapp/swingly/mlkit/SwingDetectorProcessor.kt:218-221 | true only in DOWN_SWING, and there exactly when the hand is no lower than in the previous frame |
| `SwingClassifier.TrackLowPos` | app/src/main/java/com/example/golfswinganalyzer/mlkit/SwingDetectorProcessor.kt:233-237 | the tracked low position becomes the larger of itself and the new position |
| `SwingClassifier.TrackHighPos` | app/src/main/java/com/example/golfswinganalyzer/mlkit/SwingDetectorProcessor.kt:239-243 | the tracked high position becomes the smaller of itself and the new position |
| `SwingClassifier.PhaseEffects` | app/src/main/java/com/golfapp/swingly/mlkit/SwingDetectorProcessor.kt:116-133 | the per-frame effects never change the phase, counter, previous phase, previous hand or pending timers; they only raise `lowestHandVal` and `maxJiggle` and lower `highestHandVal`; they keep whether a swing is held; the older copy reports the frame once in every engaged phase |
| `SwingClassifier.TransitionActions` | app/src/main/java/com/golfapp/swingly/mlkit/SwingDetectorProcessor.kt:144-162 | the one-time actions change only the held swing and the pending timers. READY starts an empty swing and signals `onSwingReady`. FOLLOW_THROUGH schedules exactly one reset. No other phase makes a callback |
| `SwingClassifier.AnalyzeSwing` | app/src/main/java/com/golfapp/swingly/mlkit/SwingDetectorProcessor.kt:98-165 | analysing a frame preserves the classifier invariant |
| `SwingClassifier.OnSuccess` | app/src/main/java/com/example/golfswinganalyzer/mlkit/SwingDetectorProcessor.kt:77-103 | processing a frame preserves the invariant; `maxJiggle` never decreases and no scheduled reset is lost |
| `SwingClassifier.TimerFires` | app/src/main/java/com/example/golfswinganalyzer/mlkit/SwingDetectorProcessor.kt:245-250 | the deferred task consumes one scheduled reset; it reports the held swing and leaves exactly the reset of the old tracker (`previousSwingPhase` and `maxJiggle` kept); in the older copy, with the swing already discarded, it throws before reporting, and the tracker is unchanged apart from the consumed reset; the invariant is preserved |
| `SwingClassifierProofs.EmptyFrameIsIgnored` | app/src/main/java/com/example/golfswinganalyzer/mlkit/SwingDetectorProcessor.kt:82-84 | a pose with no landmarks changes nothing and makes no callback |
| `SwingClassifierProofs.LowConfidenceFrameResets` | app/src/main/java/com/golfapp/swingly/mlkit/SwingDetectorProcessor.kt:75-91 | one drawable landmark with likelihood at most 0.5 resets the tracker and skips analysis |
| `SwingClassifierProofs.OtherLandmarksIgnored` | app/src/main/java/com/golfapp/swingly/mlkit/SwingDetectorProcessor.kt:80-86 | landmarks outside the drawable set never change the outcome of the confidence gate |
| `SwingClassifierProofs.AnalysedFrameTracking` | app/src/main/java/com/golfapp/swingly/mlkit/SwingDetectorProcessor.kt:116-135 | the frame's hand becomes the previous hand; only READY raises `lowestHandVal` and `maxJiggle` (by the jiggle of this frame), only BACK_SWING lowers `highestHandVal` |
| `SwingClassifierProofs.AnalysedFrameCapture` | app/src/main/java/com/example/golfswinganalyzer/mlkit/SwingDetectorProcessor.kt:124-145 | the pose is appended to the buffer of the phase the frame ends in and to no other; READY holds an empty swing and NOT_ENGAGED none |
| `SwingClassifierProofs.PhaseChangeActions` | app/src/main/java/com/golfapp/swingly/mlkit/SwingDetectorProcessor.kt:137-164 | time stamps and timers change only on a phase change. Entering BACK_SWING stamps the downswing start. Entering DOWN_SWING stamps the backswing end and the downswing start. Entering FOLLOW_THROUGH stamps the downswing end and the follow-through start, and schedules one reset. The model reads the clock once per frame, so each pair gets the frame's `now`. The backswing start stays 0 |
| `SwingClassifierProofs.FinishedSwingLacksOuterStamps` | app/src/main/java/com/golfapp/swingly/mlkit/SwingDetectorProcessor.kt:235-241 | the reported swing is the one held; its backswing start and follow-through end are both 0 |
| `SwingClassifierProofs.AnalysedFrameEvents` | app/src/main/java/com/example/golfswinganalyzer/mlkit/SwingDetectorProcessor.kt:124-175 | an analysed frame reports `onPhaseProcessed` once (older copy) exactly when it ends in an engaged phase, then `onSwingReady` exactly when READY is entered |
| `SwingClassifierProofs.RestingRunCountsDown` | app/src/main/java/com/golfapp/swingly/mlkit/SwingDetectorProcessor.kt:187-200 | over a run of resting frames the counter drops by one per frame and the phase stays NOT_ENGAGED until the frame on which the counter reaches 0, which enters READY |
| `SwingClassifierProofs.ReadyOnTenthRestingFrame` | app/src/main/java/com/example/golfswinganalyzer/mlkit/SwingDetectorProcessor.kt:197-210 | from a fresh or reset tracker, READY is reached exactly on the 10th consecutive resting frame |
| `SwingClassifierProofs.DisqualifyingFrameRestartsCount` | app/src/main/java/com/example/golfswinganalyzer/mlkit/SwingDetectorProcessor.kt:197-207 | a non-resting analysed frame in NOT_ENGAGED keeps the phase and sets the counter back to 10 |
| `SwingClassifierProofs.DebounceKeepsNoPartialProgress` | app/src/main/java/com/golfapp/swingly/mlkit/SwingDetectorProcessor.kt:187-200 | nine resting frames, a disqualifying one, then resting frames: READY needs all ten frames of the second run |
| `SwingClassifierProofs.RunFramesValid` | app/src/main/java/com/example/golfswinganalyzer/mlkit/SwingDetectorProcessor.kt:149-174 | after any sequence of frames the invariant holds: counter in [0, 10], a swing held in every engaged phase, `maxJiggle` at least 1.5 |
| `SwingClassifierProofs.RunWithoutResetIsMonotone` | app/src/main/java/com/example/golfswinganalyzer/mlkit/SwingDetectorProcessor.kt:177-243 | across analysed frames the phase never goes back and advances at most one step per frame; `lowestHandVal` and `maxJiggle` never decrease and `highestHandVal` never increases |
| `SwingDetectorProcessor.AllPointsInFrame` | app/src/main/java/com/golfapp/swingly/mlkit/SwingDetectorProcessor.kt:80-86 | the loop's result is true exactly when every drawable landmark has likelihood above 0.5 |
| `SwingDetectorProcessor.SwingDetectorProcessor.constructor` | app/src/main/java/com/example/golfswinganalyzer/mlkit/SwingDetectorProcessor.kt:50-66 | the fields start at the initial tracker with an empty callback log |
| `SwingDetectorProcessor.SwingDetectorProcessor.OnSuccess` | app/src/main/java/com/golfapp/swingly/mlkit/SwingDetectorProcessor.kt:71-95 | the fields and callbacks after a frame are those of the classifier model; the invariant is kept |
| `SwingDetectorProcessor.SwingDetectorProcessor.AnalyzeSwing` | app/src/main/java/com/golfapp/swingly/mlkit/SwingDetectorProcessor.kt:98-165 | as the model; an empty pose prompts the user to get in frame (newer copy) and changes nothing |
| `SwingDetectorProcessor.SwingDetectorProcessor.AdvancePhase` | app/src/main/java/com/golfapp/swingly/mlkit/SwingDetectorProcessor.kt:105-135 | returns the wrists' midpoint; the fields and callbacks become the model's after the phase has advanced, its per-frame effects have run and the hand position is recorded; every phase past READY holds a swing |
| `SwingDetectorProcessor.SwingDetectorProcessor.ApplyPhaseEffects` | app/src/main/java/com/example/golfswinganalyzer/mlkit/SwingDetectorProcessor.kt:124-145 | the per-phase side effects, including in-place appends to the held buffers, equal the model's |
| `SwingDetectorProcessor.SwingDetectorProcessor.ApplyTransitionActions` | app/src/main/java/com/example/golfswinganalyzer/mlkit/SwingDetectorProcessor.kt:153-174 | the one-time actions (new swing, in-place time stamps, scheduled reset) equal the model's, and the previous phase becomes the current one |
| `SwingDetectorProcessor.SwingDetectorProcessor.OnPhaseProcessed` | app/src/main/java/com/example/golfswinganalyzer/mlkit/SwingDetectorProcessor.kt:129-142 | reports the processed frame in the older copy only |
| `SwingDetectorProcessor.SwingDetectorProcessor.ProgressSwingPhase` | app/src/main/java/com/example/golfswinganalyzer/mlkit/SwingDetectorProcessor.kt:177-195 | the returned phase and the new counter are those of the model |
| `SwingDetectorProcessor.SwingDetectorProcessor.IsSwingReady` | app/src/main/java/com/golfapp/swingly/mlkit/SwingDetectorProcessor.kt:187-200 | a resting frame decrements the counter and any other sets it to 10; true exactly when a resting frame brings it to 0 |
| `SwingDetectorProcessor.SwingDetectorProcessor.TrackLowPos` | app/src/main/java/com/golfapp/swingly/mlkit/SwingDetectorProcessor.kt:223-227 | updates the field as the model's running maximum |
| `SwingDetectorProcessor.SwingDetectorProcessor.TrackHighPos` | app/src/main/java/com/golfapp/swingly/mlkit/SwingDetectorProcessor.kt:229-233 | updates the field as the model's running minimum |
| `SwingDetectorProcessor.SwingDetectorProcessor.TimerFires` | app/src/main/java/com/golfapp/swingly/mlkit/SwingDetectorProcessor.kt:235-241 | the deferred task as in the model; it fails (null dereference) exactly in the older copy with no swing held |
| `SwingDetectorProcessor.SwingDetectorProcessor.ResetPositions` | app/src/main/java/com/example/golfswinganalyzer/mlkit/SwingDetectorProcessor.kt:253-262 | the fields after a reset are the model's reset of the old fields; no callback |
| `Camera.Orientations` | app/src/main/java/com/example/golfswinganalyzer/camera/Camera2Source.kt:64-67 | every table entry, and the 0 read for a missing key, is a multiple of 90 in [0, 270] |
| `Camera.InverseOrientations` | app/src/main/java/com/example/golfswinganalyzer/camera/Camera2Source.kt:69-72 | every table entry, and the 0 read for a missing key, is a multiple of 90 in [0, 270] |
| `Camera.InverseIsHalfTurn` | app/src/main/java/com/example/golfswinganalyzer/camera/Camera2Source.kt:63-73 | for each display rotation the inverse entry is the forward entry plus 180, modulo 360 |
| `Camera.OrientationsUndoDisplayRotation` | app/src/main/java/com/example/golfswinganalyzer/camera/Camera2Source.kt:64-67 | the entry for rotation r is 90 minus r quarter turns, modulo 360 |
| `Camera.SizesByAreaCompare` | app/src/main/java/com/example/golfswinganalyzer/camera/Camera2Source.kt:593-597 | returns one of its arguments with the larger area; on a tie the second |
| `Camera.ReduceByArea` | app/src/main/java/com/example/golfswinganalyzer/camera/Camera2Source.kt:493-497 | the reduction returns an element of the list with maximum area |
| `Camera.ReduceByAreaIsLastLargest` | app/src/main/java/com/example/golfswinganalyzer/camera/Camera2Source.kt:593-597 | among the elements of maximum area the reduction returns the last |
| `Camera.BigEnoughSizes` | app/src/main/java/com/example/golfswinganalyzer/camera/Camera2Source.kt:481-491 | a size is in the list iff it is a choice within the maximum, of the aspect ratio (integer division) and at least the view size |
| `Camera.NotBigEnoughSizes` | app/src/main/java/com/example/golfswinganalyzer/camera/Camera2Source.kt:481-491 | a size is in the list iff it is a choice within the maximum, of the aspect ratio and smaller than the view in some dimension |
| `Camera.OptimalSize` | app/src/main/java/com/example/golfswinganalyzer/camera/Camera2Source.kt:480-500 | a successful choice is one of the choices; a failure is a division by zero on a zero-width aspect ratio or an empty array |
| `Camera.OptimalSizeIsLargestFitting` | app/src/main/java/com/example/golfswinganalyzer/camera/Camera2Source.kt:480-500 | the choice is a largest big-enough fitting size if one exists, else a largest fitting size, else the first choice; it is always one of the choices; it fails only on a zero-width aspect ratio (division by zero) or an empty array |
| `Camera.ChooseOptimalSize` | app/src/main/java/com/example/golfswinganalyzer/camera/Camera2Source.kt:480-500 | the loop and reduction compute exactly `OptimalSize` |
| `Camera.ChooseVideoSize` | app/src/main/java/com/example/golfswinganalyzer/camera/Camera2Source.kt:502-510 | returns the first 16:9 choice (integer arithmetic) if any, else the first choice; an empty array throws |
| `Camera.SwapNeeded` | app/src/main/java/com/example/golfswinganalyzer/camera/Camera2Source.kt:335-347 | only a known display rotation with a sensor angle of 0, 90, 180 or 270 can require swapping |
| `Camera.SwapNeededIsQuarterTurn` | app/src/main/java/com/example/golfswinganalyzer/camera/Camera2Source.kt:335-347 | the swap rule holds exactly when display and sensor differ by an odd number of quarter turns |
| `Camera.ComputePreviewDimensions` | app/src/main/java/com/example/golfswinganalyzer/camera/Camera2Source.kt:351-357 | when swapped, view and screen width and height are exchanged; the maximum is capped at 1920x1080 |
| `Camera.SwapExchangesDimensions` | app/src/main/java/com/example/golfswinganalyzer/camera/Camera2Source.kt:351-357 | the swapped computation equals the unswapped one on exchanged inputs |
| `Camera.Camera2Source.constructor` | app/src/main/java/com/example/golfswinganalyzer/camera/Camera2Source.kt:110-143 | sensor and display orientation start at -1 and the dimensions are not swapped |
| `Camera.Camera2Source.Start` | app/src/main/java/com/example/golfswinganalyzer/camera/Camera2Source.kt:225-226 | `start` records the display orientation |
| `Camera.Camera2Source.ApplySensorOrientation` | app/src/main/java/com/example/golfswinganalyzer/camera/Camera2Source.kt:332-348 | a reported sensor angle is stored and sets the swap flag when at right angles to the display; the flag is never cleared; nothing changes when none is reported |
| `Camera.Camera2Source.GetDetectorOrientation` | app/src/main/java/com/example/golfswinganalyzer/camera/Camera2Source.kt:577-585 | always in {0, 90, 180, 270}: 0/360, 90, 180, 270 map to themselves (360 to 0) plus half a turn when swapped; anything else gives 90 |
| `Camera.Camera2Source.GetOrientation` | app/src/main/java/com/example/golfswinganalyzer/camera/Camera2Source.kt:587-589 | the result lies strictly between -360 and 360, and in [0, 360) when the sum is non-negative |
| `Camera.GetOrientationIsSensorMinusRotation` | app/src/main/java/com/example/golfswinganalyzer/camera/Camera2Source.kt:587-589 | with a known sensor angle the orientation is the sensor angle minus the display rotation, normalised to [0, 360) |
| `Camera.GetOrientationBeforeSensorKnown` | app/src/main/java/com/example/golfswinganalyzer/camera/Camera2Source.kt:110 | with the sensor angle still -1 the orientation is 89 modulo 90, never a quarter turn |
| `AutoFit.MeasuredDimension` | app/src/main/java/com/example/golfswinganalyzer/graphics/AutoFitTextureView.kt:27-40 | with no ratio, the offered size. Otherwise, when the width is narrower than the height scaled by the ratio, it keeps the full width and the height is the width scaled by the ratio, rounded down; else it keeps the full height and the width is the height scaled, rounded down. The result always fits inside the offered size |
| `AutoFit.AutoFitTextureView.constructor` | app/src/main/java/com/example/golfswinganalyzer/graphics/AutoFitTextureView.kt:14-15 | the stored ratio starts at 0:0 |
| `AutoFit.AutoFitTextureView.SetAspectRatio` | app/src/main/java/com/example/golfswinganalyzer/graphics/AutoFitTextureView.kt:17-25 | throws exactly on a negative side, leaving the ratio unchanged; otherwise stores both sides |
| `AutoFit.AutoFitTextureView.OnMeasure` | app/src/main/java/com/example/golfswinganalyzer/graphics/AutoFitTextureView.kt:29-39 | sets the measured dimension given by `MeasuredDimension` for the stored ratio |
| `ImageUtils.InclusiveSteps` | app/src/main/java/com/example/golfswinganalyzer/util/ImageUtils.kt:17-18 | the inclusive range 0, 4, ... through a bound visits `bound/4 + 1` values: `iHeight/4 + 1` sampled rows and `iWidth/4 + 1` sampled columns |
| `ImageUtils.GridSamplesAt` | app/src/main/java/com/example/golfswinganalyzer/util/ImageUtils.kt:17-19 | in row-major order, the sample of cell (r, c) is at output slot `r*cols + c` and is the byte at `4r*iWidth + 4c` |
| `ImageUtils.SampleRow` | app/src/main/java/com/example/golfswinganalyzer/util/ImageUtils.kt:18-20 | the inner loop appends one row of samples and stops exactly at the first write or read out of bounds |
| `ImageUtils.SampleGrid` | app/src/main/java/com/example/golfswinganalyzer/util/ImageUtils.kt:15-21 | the nested loops write the row-major grid of samples and leave the rest zero; they fail exactly when the grid does not fit the output or a read passes the end of the data |
| `ImageUtils.QuarterNV21` | app/src/main/java/com/example/golfswinganalyzer/util/ImageUtils.kt:13-32 | the output has `iWidth/4 * iHeight/4 * 3/2` bytes (left to right); it holds the sampled grid first and zeros after; it throws exactly when a write or read would be out of bounds |
| `ImageUtils.QuarterNV21ReadsPastLumaPlane` | app/src/main/java/com/example/golfswinganalyzer/util/ImageUtils.kt:17-19 | for a height that is a multiple of 4 the last sample is read at or past byte `iWidth*iHeight`, outside the luma plane |
| `ImageUtils.QuarterNV21On640x480` | app/src/main/java/com/example/golfswinganalyzer/util/ImageUtils.kt:14-21 | a 640x480 frame writes 19481 of 28800 slots and reads byte 307840, past the 307200-byte luma plane |
| `ImageUtils.QuarterNV21On4x4` | app/src/main/java/com/example/golfswinganalyzer/util/ImageUtils.kt:14-20 | a 4x4 frame needs 4 samples in a 1-byte output, so the call throws whatever the data |
| `ImageUtils.QuarterLuma` | app/src/main/java/com/example/golfswinganalyzer/util/ImageUtils.kt:13-32 | the same function with half-open ranges: one sample per 4x4 block |
| `ImageUtils.QuarterLumaReadsOnlyLuma` | app/src/main/java/com/example/golfswinganalyzer/util/ImageUtils.kt:17-19 | with half-open ranges every read lies inside its own row of the luma plane |
| `ImageUtils.QuarterLumaFits` | app/src/main/java/com/example/golfswinganalyzer/util/ImageUtils.kt:14-19 | for sizes that are multiples of 4 the half-open grid fits the output and a luma-sized frame suffices |
| `ImageUtils.SizeToImageSize` | app/src/main/java/com/example/golfswinganalyzer/util/ImageUtils.kt:51-58 | the converted list has the same length, and each entry has the width and height of the entry at the same position |
| `ImageUtils.ConvertYUV420888ToNV21` | app/src/main/java/com/example/golfswinganalyzer/util/ImageUtils.kt:60-69 | the result is the remaining bytes of plane 0 followed by those of plane 2; an image with fewer than three planes throws |

## Left out

- Float arithmetic. Hand and hip coordinates, `maxJiggle`, `frameJiggle` and `changeBuffer` are modelled as exact reals, not 32-bit floats; rounding affects none of the stated properties.
- 32-bit overflow. Kotlin `Int` and `Long` overflow is not modelled: sizes, areas, byte indices and millisecond times are unbounded integers. Areas such as 4000x3000 and frame indices stay far below 2^31.
- Timer concurrency. The `Timer` thread and its race with frame processing are out of scope. The deferred task is the explicit step `TimerFires`; nothing enforces the 1.5 s delay.
- Frame times. The model does not assume a monotonic clock, so the ordering of a buffer's start and end times is not proved. The follow-through end time and the backswing start time are never stamped by the code, so they stay 0 (`FinishedSwingLacksOuterStamps`). The model reads the clock once per frame. The source reads it once per stamp, so a paired end and start (the backswing end and downswing start; the downswing end and follow-through start) may differ by the clock's progress between the two reads.
- Pose detection. The detector, graphic-overlay drawing, logging, the camera image passed to `onPhaseProcessed`, and the `CameraManager` callbacks themselves are not modelled; the callbacks are recorded in a ghost log only. Both `getPoseLandmark(...)!!` lookups are modelled as given wrist and hip coordinates.
- Newer drawable set. app/src/main/java/com/golfapp/swingly/constants/PoseConstants.kt is not part of this model. Both copies are modelled with the drawable landmark set of the older copy (`Pose.DrawablePoints`, from app/src/main/java/com/example/golfswinganalyzer/constants/PoseConstants.kt:9-25).
- `const` for `var`. The `FullSwing` buffer references and the processor's `changeBuffer` are `var` in the source but never reassigned, so the model holds them as `const` fields.
- `synchronized`. The blocks in `addPose` and `getPoses` only matter under concurrency, which is not modelled.
- Camera2Source platform parts. The camera device, capture sessions, `MediaRecorder`, `FrameProcessingRunnable`, `getBestAspectPictureSize`/`addSizesWithinTolerance` (float tolerances) and `configureTransform` (float matrix) are not modelled. The swap rule is the sensor-orientation part of opening the camera (`ApplySensorOrientation`); the screen size it uses is a parameter of `ComputePreviewDimensions`.
- AutoFitTextureView platform calls. `super.onMeasure`, `requestLayout` and the decoding of measure specs are not modelled; `OnMeasure` takes the two decoded sizes.
- ByteBuffers. `quarterNV21`'s `ByteBuffer.wrap` and the buffer positions advanced by `convertYUV420888ToNV21` are not modelled; a plane is the sequence of its remaining bytes.
- ImageUtils display queries. `getScreenRatio`, `getScreenSize` and `getScreenRotation` are platform display queries and are not modelled.
- `ImageUtils.QuarterNV21`: frame sizes are natural numbers. The source would throw on a negative array size, which is not modelled.
- Other files. `BackSwingAnalyzer.kt`, `FullSwingAnalyzer.kt` (floating-point trigonometry), `VisionProcessorBase.java`, the `CameraManager.kt` files, `ScreenRecorder.kt`, UI and activities, and the Room persistence classes are not part of this model.

## Findings

| source | as written | input that shows it | evidently intended | confidence | as-written member | corrected member |
|---|---|---|---|---|---|---|
| app/src/main/java/com/example/golfswinganalyzer/util/ImageUtils.kt:17-19 | the luma subsampling loops use the inclusive ranges `0..iHeight step 4` and `0..iWidth step 4`, so they sample one row and one column too many | a 640x480 NV21 frame: the last row sampled starts at byte 307200, the first chroma byte, and the last read is byte 307840, so chroma bytes end up among the luma samples; a 4x4 frame writes 4 samples into a 1-byte array and throws | half-open ranges (`until`): one luma byte per 4x4 block, all inside the luma plane | high; not executed | `ImageUtils.QuarterNV21ReadsPastLumaPlane` | `ImageUtils.QuarterLumaReadsOnlyLuma` |
