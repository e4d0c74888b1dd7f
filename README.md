# WebHTC tracking core in Dafny

WebHTC turns a webcam into virtual VR trackers. A pose model finds body landmarks in each
camera frame. The tracking engine maps them into room space, smooths them with One-Euro
filters, and sends them as OSC datagrams to VMT (and, optionally, VMC). A camera watchdog
reconnects a stalled camera, a calibration sets the scale and height offset from a standing
pose, and a quality monitor keeps a sliding window of frame rate, confidence and latency. A
configuration manager holds the settings as nested JSON objects, with profiles.

This project models that core in Dafny, in two releases: the current engine and
configuration manager under `core/`, and the older ones at the top level.

- `vectors.dfy`, `averages.dfy`, `mapping.dfy`: 3-vectors, means and minima, and `to_vr`,
  the map from normalised image coordinates into room space.
- `one_euro.dfy`: `OneEuroFilter` as a class whose `Call` is proved against the pure step
  `FilterStep`, and the bank of 100 filters.
- `watchdog.dfy`, `quality.dfy`: `CameraWatchdog` and `TrackingQualityMonitor` as classes
  over pure state functions.
- `calibration.dfy`: the calibration finish (mean of the samples, height check, new scale
  and height offset).
- `osc.dfy`: the VMT and VMC argument lists, with decoders and round-trip lemmas.
- `engine_loop.dfy`: one iteration of `TrackingEngine.run` as a pure function of the loop
  state and of what the world delivers (clock, camera read, pose), with the loop's
  properties.
- `engine.dfy`: the `TrackingEngine` class, whose `Step` is proved to do exactly
  `LoopStep`.
- `legacy_engine.dfy`: the older engine's fixed-alpha smoothing over a 50-slot array, its
  `send_vmt`, and its pose and hand branches.
- `json.dfy`: JSON values, with `get`, `set`, `_deep_update` and `_deep_copy` as functions.
- `config_store.dfy`: the current configuration manager, with profiles.
- `legacy_config.dfy`: the older manager, whose settings are a shallow copy of
  `DEFAULT_CONFIG`. Its groups are heap objects shared with the defaults, so a two-level
  `set` or a loaded settings file changes what `DEFAULT_CONFIG` holds.

Emitted Qt signals become a list of events, and sent datagrams a list of datagrams. The
clock, the camera and the pose model become parameters of each step.

The model keeps these behaviours of the code as they are:
- `start_calibration` (core/tracking_engine.py:240-245) restarts a calibration that is
  already running, emptying its samples.
- A calibration with a height of 0.1 or less leaves the transform unchanged and emits no
  `calib_done` (core/tracking_engine.py:416-427). It still emits
  `calib_status("calib_success", 0)`, and there is no failure status.
- After a failed reacquisition `cap` is `None` (core/tracking_engine.py:306). The next
  iteration then raises: on a timeout from `cap.release()`, otherwise from `cap.read()`
  (core/tracking_engine.py:302-314). Either way the loop ends with an exception.
- Once the retry count reaches the budget, every timed-out iteration takes the watchdog
  branch and changes nothing, so the loop spins (core/tracking_engine.py:295-312). With
  the engine's budget of 3 this state is never reached: the previous item ends the loop
  first, and a successful reacquisition clears the count. It needs a budget of 1 or 0.
  `ExhaustedSpins` states the spin, and `NeverExhausted` states that a budget of 2 or more
  never gets there.
- `reset_filters` (core/tracking_engine.py:252-255) is never called by `run`, not even
  after a reacquisition.
- `to_vr` (core/tracking_engine.py:213-216) does not reject a scale of 0 or below. Every
  lemma that needs a positive or non-zero scale says so in its `requires`.

## Model

| member | source | states |
|---|---|---|
| `Mapping.ToVr` | core/tracking_engine.py:213-216 | The image centre at depth 0 maps to the transform's offsets. |
| `Mapping.FromVrToVr` | core/tracking_engine.py:213-216 | With a non-zero scale, undoing the mapping gives back the image point: the map is injective. |
| `Mapping.ToVrFromVr` | core/tracking_engine.py:213-216 | With a non-zero scale, every room point is the image of some point: the map is onto. |
| `Mapping.LinearInScale` | core/tracking_engine.py:213-216 | With zero offsets, mapping at scale s is s times mapping at scale 1. |
| `Mapping.AxisOrientation` | core/tracking_engine.py:213-216 | With a positive scale, x keeps its order, while y (image down to room up) and z (away from the camera to toward the viewer) reverse it. |
| `Mapping.WidthKept` | core/tracking_engine.py:214 | With a positive scale, a larger image x gives a larger room x. |
| `Mapping.HeightFlips` | core/tracking_engine.py:215 | With a positive scale, a larger image y gives a smaller room y. |
| `Mapping.DepthFlips` | core/tracking_engine.py:216 | With a positive scale, a larger image z gives a smaller room z. |
| `Vectors.LerpBetween` | core/tracking_engine.py:58-62 | A blend `p + k*(x - p)` with weight in [0, 1] lies between p and x. |
| `Averages.Min` | core/tracking_engine.py:124 | `np.min` of a non-empty history is an element of it and at most every element. |
| `Averages.SumAtLeastCountTimesMin` | core/tracking_engine.py:123-124 | The sum of a non-empty integer history is at least its length times its minimum. |
| `Averages.MinAtMostMean` | core/tracking_engine.py:123-124 | The reported `fps_min` never exceeds `fps_avg`. |
| `Averages.SumConstant` | core/tracking_engine.py:419 | The sum of n copies of c is n*c. |
| `Averages.MeanConstant` | core/tracking_engine.py:419 | The mean of a non-empty constant sequence is that constant. |
| `OneEuro.Alpha` | core/tracking_engine.py:67-69 | `_alpha` for a positive step and cutoff lies strictly between 0 and 1. |
| `OneEuro.AlphaIncreasing` | core/tracking_engine.py:67-69 | A higher cutoff gives a strictly larger blend weight, so less smoothing. |
| `OneEuro.Cutoff` | core/tracking_engine.py:60 | The adaptive cutoff is never below `min_cutoff`, so it is positive. |
| `OneEuro.FilterStep` | core/tracking_engine.py:45-65 | The first call returns the input and stores it with zero velocity. With `dt <= 0` it returns the previous output and changes nothing. Otherwise the new time is stored, the output is the stored position, and output and velocity lie component-wise between their old values and the new input. |
| `OneEuro.BlendBounds` | core/tracking_engine.py:56-62 | The smoothed velocity lies between the previous velocity and the raw one, and the smoothed position between the previous position and the input. |
| `OneEuro.StillInputIsFixed` | core/tracking_engine.py:53-65 | Feeding an initialised filter its own last output returns that output, at any time stamp. |
| `OneEuro.OneEuroFilter.constructor` | core/tracking_engine.py:30-37 | The parameters are as given, and the filter is uninitialised. |
| `OneEuro.OneEuroFilter.Reset` | core/tracking_engine.py:39-43 | The filter is uninitialised again. |
| `OneEuro.OneEuroFilter.Call` | core/tracking_engine.py:45-65 | The new state and the returned position are exactly `FilterStep` of the old state. |
| `OneEuro.FilterBank.constructor` | core/tracking_engine.py:171 | 100 filters, all with the same parameters, all uninitialised. |
| `OneEuro.FilterBank.Apply` | core/tracking_engine.py:218-219 | A channel outside 0..99 is a KeyError. Otherwise that channel makes one `FilterStep`, and every other channel is unchanged. |
| `OneEuro.FilterBank.ResetAll` | core/tracking_engine.py:252-255 | Every channel is uninitialised. |
| `Watchdog.ClearedNeverTimedOut` | core/tracking_engine.py:83-101 | After `reset` there is no timeout at any clock and the retry count is 0. |
| `Watchdog.RecordedTimesOut` | core/tracking_engine.py:83-90 | After a frame recorded at a positive time t, a timeout is detected exactly when more than `frame_timeout` has passed since t. |
| `Watchdog.CameraWatchdog.constructor` | core/tracking_engine.py:74-81 | Retry count 0, no frame recorded, a 5 s timeout and the given budget and delay. |
| `Watchdog.CameraWatchdog.CheckFrameTimeout` | core/tracking_engine.py:83-87 | False while no frame has been recorded. Otherwise whether the elapsed time exceeds the timeout. |
| `Watchdog.CameraWatchdog.RecordFrame` | core/tracking_engine.py:89-90 | The last frame time becomes the clock. Nothing else changes. |
| `Watchdog.CameraWatchdog.ShouldRetry` | core/tracking_engine.py:92-93 | Whether the retry count is below the budget. |
| `Watchdog.CameraWatchdog.IncrementRetry` | core/tracking_engine.py:95-97 | The retry count goes up by one. Nothing else changes. |
| `Watchdog.CameraWatchdog.Reset` | core/tracking_engine.py:99-101 | The retry count and the last frame time become 0. |
| `Quality.Recorded` | core/tracking_engine.py:112-119 | The three histories stay of equal length, never longer than the window. |
| `Quality.RecordAll` | core/tracking_engine.py:112-119 | Any sequence of records keeps the histories equal in length and within the window. |
| `Quality.WindowKeepsLatest` | core/tracking_engine.py:106-119 | From empty, after any sequence of records each history holds exactly the latest window-size values, oldest first. |
| `Quality.StatsOf` | core/tracking_engine.py:121-127 | An empty window gives all zeros. Otherwise `fps_min` is an element of the fps history, at most each element, and at most `fps_avg`. |
| `Quality.TrackingQualityMonitor.GetStats` | core/tracking_engine.py:121-127 | An empty window gives all zeros. Otherwise `fps_min` is an element of the fps history, at most each element, and at most `fps_avg`. |
| `Quality.TrackingQualityMonitor.constructor` | core/tracking_engine.py:106-110 | Empty histories with the given window size. |
| `Quality.TrackingQualityMonitor.Record` | core/tracking_engine.py:112-119 | The histories become `Recorded` of the old ones. |
| `Calibration.Calibrate` | core/tracking_engine.py:417-427 | The x and z offsets never change. With no samples, or a height of 0.1 or less, the transform is unchanged. Otherwise the scale is 1.7 / height (strictly between 0 and 17) and the y offset is `-(mean head y * scale - 1.55)`. |
| `Calibration.HeightNorm` | core/tracking_engine.py:419-420 | The mean foot row minus the mean head row. It has no contract of its own: `CalibratedHeight` proves that, after a successful calibration, these two rows map exactly 1.7 apart. |
| `Calibration.ScaleBounds` | core/tracking_engine.py:421-422 | A height above 0.1 gives a scale strictly between 0 and 17. |
| `Calibration.CalibratedHeight` | core/tracking_engine.py:419-424 | After a successful calibration, the mean head and mean foot rows map exactly 1.7 apart in room height. The head's room height is 1.55 + scale * (0.5 - 2 * mean head y). |
| `Calibration.WorkedExample` | core/tracking_engine.py:417-427 | Samples with head 0.2 and feet 0.9 give height 0.7, scale 17/7 and y offset 149/140. |
| `Calibration.DegenerateExample` | core/tracking_engine.py:417-427 | Samples with height 0.05 leave the transform exactly as it was. |
| `Osc.Floats` | core/tracking_engine.py:226 | One float argument per value, in order. |
| `Osc.VmtArgs` | core/tracking_engine.py:226 | `[idx, 1, 0.0, *pos, *rotation]`. It has no contract of its own: `VmtRoundTrip` proves the list decodes back to exactly these values, and `VmtWrongRotationRefused` proves a rotation that is not 4 long is refused. |
| `Osc.VmcArgs` | core/tracking_engine.py:236 | `[bone_name, 0, *pos, *rotation]`. It has no contract of its own: `VmcRoundTrip` proves the list decodes back to exactly these values. |
| `Osc.RotationOrIdentity` | core/tracking_engine.py:225 | An absent or empty rotation gives the identity quaternion; any other is passed through. |
| `Osc.VmtSend` | core/tracking_engine.py:221-229 | No VMT client means nothing is sent. Otherwise exactly one datagram to `/VMT/Room/Unity`. With a 4-component rotation (the identity when none is given), the receiver decodes it as tracker `idx`, enable 1, time offset 0.0, the position and that rotation. Any other rotation length gives a message the receiver refuses. |
| `Osc.VmcSend` | core/tracking_engine.py:231-238 | No VMC client means nothing is sent. Otherwise exactly one datagram to `/VMC/Ext/Tr/Cal`. With a 4-component rotation (the identity when none is given), the receiver decodes it as the bone name, 0, the position and that rotation. Any other rotation length gives a message the receiver refuses. |
| `Osc.FloatValuesOfFloats` | core/tracking_engine.py:226 | Reading back a list of float arguments gives the original values. |
| `Osc.VmtRoundTrip` | core/tracking_engine.py:226-227 | A VMT argument list with a 4-component rotation decodes to index, enable 1, time offset 0.0, the position and the rotation. |
| `Osc.VmcRoundTrip` | core/tracking_engine.py:235-236 | A VMC argument list with a 4-component rotation decodes to bone, 0, the position and the rotation. |
| `Osc.VmtWrongRotationRefused` | core/tracking_engine.py:225-226 | A rotation that is not 4 components long gives a list no decoder accepts as VMT. |
| `Osc.VmtExample` | core/tracking_engine.py:221-227 | Tracker 3 at (1.0, 2.0, -0.5) with the default rotation encodes as `[3, 1, 0.0, 1.0, 2.0, -0.5, 0.0, 0.0, 0.0, 1.0]`. |
| `Engine.MinCutoff` | core/tracking_engine.py:169-170 | `max(0.01, 1.5 * (1.1 - smooth_factor))`: at least both terms, and equal to one of them. |
| `Engine.MinCutoffAntitone` | core/tracking_engine.py:169-170 | A larger smoothing factor never gives a larger minimum cutoff. |
| `Engine.FilterParams` | core/tracking_engine.py:169-171 | The filter parameters built from any smoothing factor are valid: positive cutoffs, non-negative beta. |
| `Engine.TrackingEngine.constructor` | core/tracking_engine.py:141-195 | The transform is from the configuration, and there is no calibration and no connection. All 100 filters use the derived cutoff and beta 0.01 and start uninitialised. The watchdog is fresh with 3 retries and 2 s, and the quality window is empty with size 60. The VMC client exists only when VMC is enabled. The events are an `ERR` log with the exception text if the VMT client failed, then one if VMC is enabled and its client failed, then the `SYS` initialisation log. Nothing is sent. |
| `Engine.TrackingEngine.StartCalibration` | core/tracking_engine.py:240-245 | The loop state becomes `Started`: calibrating from now, with no samples, whether or not a calibration was running. |
| `Engine.TrackingEngine.ResetFilters` | core/tracking_engine.py:252-255 | Every filter is uninitialised, and the loop state is unchanged. |
| `Engine.TrackingEngine.BeginRun` | core/tracking_engine.py:282-289 | Without a camera: one error log event, and `run` returns. Otherwise a capture is held, the counters are zero and `last_time` is now. |
| `Engine.TrackingEngine.TrackJoint` | core/tracking_engine.py:339-385 | One joint: the landmark is mapped by `to_vr` and filtered on its channel. A missing channel raises KeyError and nothing is sent. Otherwise exactly the VMT datagram, plus the VMC one when VMC is on and the joint has a bone, is appended. Other channels and the loop state are unchanged. |
| `Engine.TrackingEngine.Step` | core/tracking_engine.py:291-450 | One iteration of `while self.running`: the new state and whether an exception ended `run` are exactly `LoopStep`. |
| `Engine.TrackingEngine.OnTimeout` | core/tracking_engine.py:295-312 | The watchdog branch is exactly `TimeoutBranch`. |
| `Engine.TrackingEngine.OnFrame` | core/tracking_engine.py:318-450 | The rest of an iteration after a frame is read is exactly `FrameBranch`. |
| `Engine.TrackingEngine.MarkConnected` | core/tracking_engine.py:318-321 | The frame is recorded, and `camera_restored` is emitted if the camera was marked disconnected (`Connect`). |
| `Engine.TrackingEngine.TakePose` | core/tracking_engine.py:333-394 | The confidence is added, and a calibration sample is taken after the 3 s warm-up (`PosePhase`). |
| `Engine.TrackingEngine.FinishCalibration` | core/tracking_engine.py:416-427 | The calibration finish is exactly `FinishPhase`. |
| `Engine.TrackingEngine.UpdateQuality` | core/tracking_engine.py:430-443 | The frame count, the 30-frame quality record and the fps event are exactly `QualityPhase`. |
| `Engine.TrackingEngine.CountFrame` | core/tracking_engine.py:433 | The frame count goes up by one. Nothing else changes. |
| `Engine.TrackingEngine.RecordBatch` | core/tracking_engine.py:435-440 | The 30-frame record is exactly `BatchPhase`. |
| `Engine.TrackingEngine.CloseBatch` | core/tracking_engine.py:437-440 | The confidence sum restarts at 0 and the statistics are emitted. Nothing else changes. |
| `Engine.TrackingEngine.Tally` | core/tracking_engine.py:442-443 | The fps event is emitted and `last_time` becomes the current clock. Nothing else changes. |
| `Engine.TrackingEngine.EmitStatus` | core/tracking_engine.py:445-450 | The status and frame events are exactly `StatusPhase`. |
| `EngineLoop.Fps` | core/tracking_engine.py:432 | `int(1.0 / dt)` if `dt > 0`, else 0. It has no contract of its own: `FpsBounds` proves it is 0 for a non-positive interval, and otherwise `1/dt` rounded down. |
| `EngineLoop.FpsBounds` | core/tracking_engine.py:432 | A non-positive interval reports 0. Otherwise the reported rate is `1/dt` rounded down: non-negative, at most `1/dt`, and more than `1/dt - 1`. |
| `EngineLoop.Status` | core/tracking_engine.py:445-448 | A status event whose text is "TRACKING" exactly when tracking is active, and "SEARCHING" otherwise. |
| `EngineLoop.TimeoutBranch` | core/tracking_engine.py:295-312 | The watchdog branch keeps the loop invariant: retries within budget, a bounded quality window, a non-negative frame count. |
| `EngineLoop.Connect` | core/tracking_engine.py:318-321 | Recording a frame keeps the loop invariant. |
| `EngineLoop.PosePhase` | core/tracking_engine.py:333-394 | The pose phase keeps the loop invariant. |
| `EngineLoop.FinishPhase` | core/tracking_engine.py:416-427 | The calibration finish keeps the loop invariant. |
| `EngineLoop.QualityPhase` | core/tracking_engine.py:430-443 | The quality phase keeps the loop invariant. |
| `EngineLoop.BatchPhase` | core/tracking_engine.py:435-440 | The 30-frame record keeps the loop invariant. |
| `EngineLoop.StatusPhase` | core/tracking_engine.py:445-450 | The status phase keeps the loop invariant. |
| `EngineLoop.FrameBranch` | core/tracking_engine.py:318-450 | Processing a read frame keeps the loop invariant. |
| `EngineLoop.LoopStep` | core/tracking_engine.py:291-450 | Every iteration keeps the loop invariant. |
| `EngineLoop.Run` | core/tracking_engine.py:291-452 | Any number of iterations keeps the loop invariant. |
| `EngineLoop.ConnectNoLost` | core/tracking_engine.py:318-321 | Recording a frame never emits `camera_lost`. |
| `EngineLoop.FinishNoLost` | core/tracking_engine.py:416-427 | The calibration finish never emits `camera_lost`. |
| `EngineLoop.QualityNoLost` | core/tracking_engine.py:430-443 | The quality phase never emits `camera_lost`. |
| `EngineLoop.StatusNoLost` | core/tracking_engine.py:445-450 | The status phase never emits `camera_lost`. |
| `EngineLoop.FrameNoLost` | core/tracking_engine.py:318-450 | Processing a read frame never emits `camera_lost`. |
| `EngineLoop.FrameFacts` | core/tracking_engine.py:314-443 | After a read frame the frame is recorded and the camera is marked connected. The capture, the x and z offsets are kept, the frame count goes up by one, and `last_time` is the current clock. |
| `EngineLoop.LostOnlyOnEdge` | core/tracking_engine.py:295-300 | One iteration emits `camera_lost` exactly when the camera was marked connected and a timeout is detected. |
| `EngineLoop.ConnectedAfterTimeoutIsCleared` | core/tracking_engine.py:302-311 | Leaving the watchdog branch connected means a reconnection happened, which reset the retry count and the frame time. |
| `EngineLoop.OneLostPerOutage` | core/tracking_engine.py:295-312 | Across any run of iterations that all detect a timeout, `camera_lost` fires exactly once if the camera was connected before, and never otherwise. |
| `EngineLoop.RetryCountChanges` | core/tracking_engine.py:302-311 | The retry count rises only by one, in the watchdog branch, while retries remain. It falls only to 0, on a successful reconnection. |
| `EngineLoop.ExhaustedSpins` | core/tracking_engine.py:302-312 | Once disconnected with the retries spent, every later timed-out iteration changes nothing and ends nothing: the loop spins. |
| `EngineLoop.StepAttainable` | core/tracking_engine.py:295-321 | An iteration `run` survives, from a held capture with no retry spent or from no capture with one retry spent, ends in one of those two states, with the same budget. |
| `EngineLoop.NeverExhausted` | core/tracking_engine.py:295-321 | With a budget of 2 or more (the engine's is 3), starting from a held capture with no retry spent, every iteration `run` survives leaves at most one retry spent. The spinning state of `ExhaustedSpins` is never reached. |
| `EngineLoop.FailedReacquireEndsLoop` | core/tracking_engine.py:302-312 | A failed reconnection followed by another timed-out iteration with retries left ends `run` with an exception, and the retry count rises by 2. |
| `EngineLoop.StepKeepsOffsets` | core/tracking_engine.py:291-450 | No iteration changes the x or z offset. |
| `EngineLoop.OffsetsXZUnchanged` | core/tracking_engine.py:291-452 | No run of the loop changes the x or z offset. |
| `EngineLoop.CalibrationOnFrame` | core/tracking_engine.py:391-427 | On a read frame, a sample is appended exactly when landmarks were found, a calibration runs and 3 s have passed. The calibration ends exactly at 5 s and sets the transform by `Calibrate`; otherwise the transform is unchanged. The frame adds one `calib_status("calib_success", 0)` exactly when the calibration ends. It adds one `calib_done` exactly when the calibration ends and succeeds, and that signal carries the new scale and offsets. |
| `EngineLoop.FrameSignals` | core/tracking_engine.py:416-450 | Over a whole read frame, the `calib_status` count rises by one exactly when the calibration finishes. The `calib_done` count rises by one exactly when it also succeeds, and that one signal carries the new transform. |
| `EngineLoop.SplitSignals` | core/tracking_engine.py:416-427 | Signals that are not calibration signals, placed around the finish's signals, leave the counts of `calib_status` and `calib_done` to the finish alone. |
| `EngineLoop.FrameEvents` | core/tracking_engine.py:318-450 | A read frame's signals are the old ones, then signals before the calibration finish, then the finish's own signals, then signals after it. Neither side holds a calibration signal. |
| `EngineLoop.StatusOnlyWhenNotCalibrating` | core/tracking_engine.py:445-450 | On a read frame the last event is `frame_ready`. The one before it is the TRACKING or SEARCHING status exactly when no calibration is running. |
| `EngineLoop.QualityIdle` | core/tracking_engine.py:291-316 | An iteration that reads no frame changes neither the frame count, the quality window nor the confidence sum. |
| `EngineLoop.QualityCadence` | core/tracking_engine.py:429-443 | A read frame adds one to the frame count. The window and the confidence sum are touched only on every 30th frame (the sum restarts at 0); otherwise the sum grows by this frame's confidence. |
| `EngineLoop.QualityPhaseCadence` | core/tracking_engine.py:430-443 | On every 30th frame the window records this frame's fps, the confidence sum / 30 and the latency in ms. Otherwise the window and the sum are unchanged. |
| `EngineLoop.Started` | core/tracking_engine.py:240-245 | A new calibration from now with no samples, and one log event. The watchdog, the transform and the window are kept. |
| `EngineLoop.WarmUpStep` | core/tracking_engine.py:391-394 | Within 3 s of the start, an iteration takes no sample and leaves the calibration running with the transform unchanged. |
| `EngineLoop.WarmUpTakesNoSamples` | core/tracking_engine.py:391-427 | Any run of iterations within the first 3 s of a calibration takes no sample and changes no transform. |
| `LegacyEngine.Smooth` | tracking_engine.py:41-44 | A slot never used before stores the input as given. `SmoothBetween` and `SmoothEndpoints` state the blend for a used slot. |
| `LegacyEngine.SmoothBetween` | tracking_engine.py:39-45 | With alpha in [0, 1], the smoothed position lies between the stored one and the input. |
| `LegacyEngine.SmoothEndpoints` | tracking_engine.py:39-45 | Alpha 1 follows the input, alpha 0 never moves, and an input equal to the stored position is kept. |
| `LegacyEngine.LegacyVmt` | tracking_engine.py:49-50 | The legacy datagram: the VMT address and `[idx, 1, 0.0, *pos, 0, 0, 0, 1]`. It has no contract of its own: `LegacyVmtReadBack` proves a receiver reads it back as that tracker, enabled, at that position, with the identity rotation. |
| `LegacyEngine.LegacyVmtReadBack` | tracking_engine.py:47-51 | The legacy datagram decodes to the tracker, enabled, at the position, with the identity rotation. |
| `LegacyEngine.SameWireFormat` | tracking_engine.py:47-51 | The older and the current `send_vmt` put the same datagram on the wire for a tracker without rotation. |
| `LegacyEngine.Perform1` | tracking_engine.py:39-51 | One job keeps the 50 slots. |
| `LegacyEngine.Perform` | tracking_engine.py:39-51 | A list of jobs keeps the 50 slots. |
| `LegacyEngine.PerformSnoc` | tracking_engine.py:39-51 | Performing jobs and then one more is performing the longer list. |
| `LegacyEngine.PerformAppend` | tracking_engine.py:39-51 | Performing two job lists in turn is performing their concatenation. |
| `LegacyEngine.LegacyVmtTracker` | tracking_engine.py:47-49 | The tracker read from a legacy datagram is the index it was sent for. |
| `LegacyEngine.PerformSends` | tracking_engine.py:39-51 | One datagram is sent per job, in job order, to the VMT address, for the job's tracker. What was sent before is untouched. |
| `LegacyEngine.PerformKeeps` | tracking_engine.py:39-45 | A slot that no job names is unchanged. |
| `LegacyEngine.PerformPose` | tracking_engine.py:119-134 | Performing the head, wrist and waist jobs in three phases is performing the whole pose job list. |
| `LegacyEngine.Mid` | tracking_engine.py:132 | The waist point lies between the two hips. |
| `LegacyEngine.PoseJobs` | tracking_engine.py:120-134 | The pose branch only uses slots 0 to 3. |
| `LegacyEngine.HandChannel` | tracking_engine.py:148-154 | The hand branch uses slot 11 exactly for a "Left" label, and slot 12 otherwise. |
| `LegacyEngine.HandJobs` | tracking_engine.py:144-157 | One job per detected hand, in detection order. |
| `LegacyEngine.BranchesIndependent` | tracking_engine.py:120-157 | The hand branch never touches the pose branch's slots 0 to 3, and the pose branch never touches the hand slots 11 and 12. |
| `LegacyEngine.FirstHandIsRaw` | tracking_engine.py:144-157 | On a slot never used before, a hand's mapped wrist is stored and sent unsmoothed. |
| `LegacyEngine.LegacyTracker.constructor` | tracking_engine.py:17-37 | The transform from the settings, one shared alpha, 50 empty slots, and nothing sent. |
| `LegacyEngine.LegacyTracker.ApplyFilter` | tracking_engine.py:39-45 | A key outside 0..49 raises KeyError and nothing changes. Otherwise the result is the smoothed position, stored in that slot alone. |
| `LegacyEngine.LegacyTracker.SendVmt` | tracking_engine.py:47-51 | Exactly one datagram is appended. |
| `LegacyEngine.LegacyTracker.Track` | tracking_engine.py:121-122 | One joint is exactly `Perform1`. |
| `LegacyEngine.LegacyTracker.TrackPose` | tracking_engine.py:119-134 | The pose branch is exactly `Perform` of `PoseJobs`. |
| `LegacyEngine.LegacyTracker.TrackHead` | tracking_engine.py:120-122 | The head is exactly `Perform` of its job, when enabled. |
| `LegacyEngine.LegacyTracker.TrackWrists` | tracking_engine.py:125-129 | Both wrists filtered, then both sent, is exactly `Perform` of the wrist jobs. |
| `LegacyEngine.LegacyTracker.TrackWaist` | tracking_engine.py:131-134 | The waist is exactly `Perform` of its job, when enabled. |
| `LegacyEngine.LegacyTracker.TrackHands` | tracking_engine.py:140-157 | The hand loop is exactly `Perform` of `HandJobs`, hand by hand. |
| `JsonTree.Lookup` | core/config_manager.py:137-146 | An empty path gives the value itself, and with a non-null fallback the result is never null. `GetAfterSet`, `SetPreservesOthers` and `UpdateApplies` state what it reads after `set` and `_deep_update`. |
| `JsonTree.SetPath` | core/config_manager.py:148-157 | `set` keeps every top-level key and adds the first key of the path. |
| `JsonTree.GetAfterSet` | core/config_manager.py:137-157 | After setting a non-null value at a path, `get` of that path returns it. |
| `JsonTree.GetAfterSetNull` | core/config_manager.py:137-157 | After setting null at a path, `get` of that path returns the fallback. |
| `JsonTree.ChildLookup` | core/config_manager.py:137-156 | Reading below the object `set` walks into equals reading below that key. |
| `JsonTree.SetPreservesOthers` | core/config_manager.py:137-157 | Any path that parts from the set path before its end reads the same after `set`, even where `set` replaced a level by `{}`. |
| `JsonTree.Merged` | core/config_manager.py:129-135 | Merging into an object gives an object. |
| `JsonTree.DeepUpdate` | core/config_manager.py:129-135 | Succeeds exactly for an object update that can merge. A non-object update raises AttributeError, and an object aimed at a non-object base raises TypeError. |
| `JsonTree.LeafLookup` | core/config_manager.py:137-146 | `get` follows the update's own path to its non-null leaf. |
| `JsonTree.UpdateApplies` | core/config_manager.py:129-146 | After `_deep_update`, every non-null leaf of the update is read back at its path. |
| `JsonTree.UpdateKeepsApart` | core/config_manager.py:129-146 | Every path clear of the update reads the same before and after the merge. |
| `JsonTree.EmptyUpdateKeepsValue` | core/config_manager.py:129-135 | An empty object in the update leaves even a non-object value under its key unchanged. |
| `JsonTree.ObjectOverValueRaises` | core/config_manager.py:129-135 | A non-empty object aimed at a number raises TypeError. |
| `JsonTree.DeepCopy` | core/config_manager.py:85-87 | The JSON round-trip copy equals the original value. |
| `ConfigStore.Defaults` | core/config_manager.py:13-75 | The `DEFAULT_CONFIG` table. It has no contract of its own: `DefaultsReadBack` proves what the engine reads from it. |
| `ConfigStore.DefaultsReadBack` | core/config_manager.py:13-75 | The defaults name "default" as the active profile and hold the calibration scale and smoothing factor the engine starts from. |
| `ConfigStore.ActiveProfile` | core/config_manager.py:212-214 | A missing, non-object or null `profiles.active` gives "default". Otherwise the stored value. |
| `ConfigStore.ConfigManager.GetActiveProfile` | core/config_manager.py:212-214 | Never null: either "default" or the stored `profiles.active`. |
| `ConfigStore.ActiveSurvivesOtherSets` | core/config_manager.py:148-157 | A `set` on a path that parts from `profiles.active` keeps the active profile. |
| `ConfigStore.ConfigManager.constructor` | core/config_manager.py:79-110 | The settings are the defaults, merged with the settings file when there is one and the merge succeeds. The profile table holds "default", a copy of the settings. |
| `ConfigStore.ConfigManager.Get` | core/config_manager.py:137-146 | The walk loop returns exactly `Lookup`: the fallback on a non-object, a missing key or null. |
| `ConfigStore.ConfigManager.Set` | core/config_manager.py:148-157 | No key raises IndexError and nothing changes. Otherwise the settings become `SetPath` of the old ones, and the profiles are unchanged. |
| `ConfigStore.ConfigManager.LoadProfile` | core/config_manager.py:175-192 | "default" gives fresh defaults, a known profile a copy of it, and a profile file is read and entered. With none of these the result is false and nothing changes. On success the name is the active profile. |
| `ConfigStore.ConfigManager.DeleteProfile` | core/config_manager.py:194-205 | "default" is never deleted. Otherwise the result is whether the file existed, and only then does the name leave the table. The settings never change. |
| `LegacyConfig.LegacyDefaults` | config_manager.py:10-57 | The older `DEFAULT_CONFIG` table. It has no contract of its own: `LegacyDefaultsReadBack` proves what it holds. |
| `LegacyConfig.LegacyDefaultsReadBack` | config_manager.py:10-57 | The older defaults ask for 30 fps and have no VMC settings. |
| `LegacyConfig.MergedSoFarStep` | config_manager.py:82-88 | One more round of the update loop merges one more key against its original value. |
| `LegacyConfig.MergedSoFarComplete` | config_manager.py:82-88 | After every key of a non-empty update, the loop has produced the whole merge. |
| `LegacyConfig.LegacyConfigManager.constructor` | config_manager.py:60-61 | `DEFAULT_CONFIG.copy()`: a new top-level dictionary holding the very same group objects. |
| `LegacyConfig.LegacyConfigManager.Get` | config_manager.py:90-99 | The walk loop returns exactly `Lookup` of what the manager reads, with groups seen through their shared objects: the fallback on a non-object, a missing key or null. |
| `LegacyConfig.LegacyConfigManager.Set` | config_manager.py:101-110 | No key raises IndexError. Otherwise what the manager reads becomes `SetPath` of the old. A path of two or more keys under an existing group changes that group object in place and no other group. |
| `LegacyConfig.LegacyConfigManager.ReplaceEntry` | config_manager.py:110 | One key replaces the top-level entry. No group changes. |
| `LegacyConfig.LegacyConfigManager.WriteInGroup` | config_manager.py:106-110 | A longer path changes the group under its first key in place. |
| `LegacyConfig.LegacyConfigManager.WriteInNewGroup` | config_manager.py:106-110 | A missing or non-object first level is replaced by a new object, seeded from an object value, holding the rest of the path. |
| `LegacyConfig.LegacyConfigManager.Install` | config_manager.py:108 | A new group is entered under its key, and what the manager reads changes only there. |
| `LegacyConfig.LegacyConfigManager.Load` | config_manager.py:64-72 | With no file nothing changes. Otherwise the settings become `_deep_update` of the old, and a merge error changes nothing. Every group the file merges an object into stays the same object. |
| `LegacyConfig.LegacyConfigManager.MergeAll` | config_manager.py:82-88 | The update loop over the top-level keys, in any order, gives the whole merge, keeping the group objects the update merges into. |
| `LegacyConfig.LegacyConfigManager.MergeNext` | config_manager.py:84-88 | One round of the loop advances the partial merge by one key. Other entries keep their objects. |
| `LegacyConfig.LegacyConfigManager.MergeKey` | config_manager.py:84-88 | An object under an existing key is merged in place. Anything else replaces the entry. |
| `LegacyConfig.LegacyConfigManager.MergeInGroup` | config_manager.py:85-86 | Merging into a group changes that group object in place. |
| `LegacyConfig.SetThroughCopy` | config_manager.py:60-61 | After a manager copied from `defaults` sets a path of two or more keys under a group, `defaults` reads the same as the manager: `SetPath` of its old content. A one-key `set` leaves `defaults` as it was. |
| `LegacyConfig.Open` | config_manager.py:60-72 | `ConfigManager()` reads the defaults merged with the file. Every default group the file merges an object into reads, through `DEFAULT_CONFIG`, exactly what the manager reads. |
| `LegacyConfig.SharedDefaultsWitness` | config_manager.py:60-61 | With a `system` group holding `first_run: true`, a manager's `set('system', 'first_run', False)` makes the defaults read false. |

## Left out

- Camera capture, the pose and hand models, frame flipping, colour conversion, drawing, sleeping, logging and file I/O are not modelled. Their outcomes are parameters of each step: the clock, whether a capture is obtained, the read result, and the pose found in it.
- Qt signals are entries appended to an event list, and UDP sends are datagrams appended to a list. There is no thread, and no cooperative `stop`: a run is a finite sequence of iterations.
- Real numbers are exact. `float64` rounding, and numpy arrays beyond three components, are not modelled. `int(1.0 / dt)` is the floor of a positive value.
- `_init_camera`'s three attempts and its fallback to device 0 are reduced to whether a capture is obtained.
- Engine.TrackingEngine.Step: the per-joint dispatch of a frame (lines 339-414 of core/tracking_engine.py) is not composed into `Step`. Each joint's pipeline is `TrackJoint`, and `Step` states the loop state only.
- Engine.TrackingEngine.TakePose: the confidence value (`visibility[0]` or 1.0) is a field of the pose result, not computed from landmarks.
- The `paused` flag, mode selection, the fps computation and the status signals of the older engine's `run` are not modelled. Its smoothing, `send_vmt`, and pose and hand branches are.
- LegacyEngine.LegacyTracker.SendVmt, Osc.VmtSend, Osc.VmcSend: the tracker index is an integer, and the position and rotation are reals. An index or value that `int()` or `float()` rejects raises inside the `try`, is swallowed, and sends nothing; that case is not modelled (core/tracking_engine.py:224-229, 233-238, tracking_engine.py:47-51).
- ConfigStore.ConfigManager.constructor: on a failing merge the model keeps the defaults whole. The source keeps the keys merged before the failing one, because dictionary order is not modelled. Profile files present at start-up are not read into the table.
- ConfigStore.ConfigManager.LoadProfile: a profile file must hold an object. With any other JSON value the source's `set` would raise, and this is not modelled.
- LegacyConfig.LegacyConfigManager.Load: on a failing merge nothing changes, whereas the source keeps the keys merged before the failing one.
- LegacyConfig.Open: it states the outcome of a merge that succeeds. On a failing merge the model changes nothing, whereas the source keeps the keys merged before the failure, and those keys already sit in the groups it shares with `DEFAULT_CONFIG`. For example, with the file `{"camera": {"width": 800}, "tracking": {"mode": {"x": 1}}}`, the source writes 800 into the shared `camera` group and then raises on `tracking.mode`.
- EngineLoop.LoopStep: each iteration takes one clock value `now`. The watchdog check, `record_frame`, `frame_start` and both calibration time checks all use it (core/tracking_engine.py:85, 90, 292, 392, 417), whereas the source reads `time.time()` separately at each of these points. Only `curr` (line 430) is a separate value.
- JSON values cover null, booleans, integers, reals, strings, lists and string-keyed objects. `_deep_copy` is therefore the identity. Tuples, non-string keys and non-finite numbers, which its JSON round trip would change, are not modelled.
- `save`, `save_profile`, `list_profiles`, `export_config`, `import_config`, `backup_config` and `reset_to_defaults` are file operations and are not modelled. The current `set` walks its levels as shared objects; the model rebuilds them by value, which gives the same result because the current manager never shares them.
