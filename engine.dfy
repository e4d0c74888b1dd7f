/**
 * `TrackingEngine`: the calibration transform, the calibration session, the connection flag,
 * the filters, the watchdog and the quality monitor as objects updated in place, with one
 * iteration of the tracking loop proved against `EngineLoop.LoopStep`.
 */
module Engine {
  import opened Wrappers
  import opened Vectors
  import opened Mapping
  import opened Averages
  import opened Osc
  import opened OneEuro
  import opened Calibration
  import opened EngineLoop
  import W = Watchdog
  import Q = Quality

  const FilterBeta: real := 0.01
  const FilterDCutoff: real := 1.0

  /**
   * `max(0.01, 1.5 * (1.1 - smooth_factor))`: the filters' minimum cutoff derived from the
   * user's smoothing factor; never below 0.01, so every filter's parameters are valid.
   */
  function MinCutoff(smooth: real): (m: real)
    ensures m >= 0.01 && m >= 1.5 * (1.1 - smooth)
    ensures m == 0.01 || m == 1.5 * (1.1 - smooth)
  {
    if 1.5 * (1.1 - smooth) > 0.01 then 1.5 * (1.1 - smooth) else 0.01
  }

  /** More smoothing never raises the cutoff. */
  lemma MinCutoffAntitone(a: real, b: real)
    requires a <= b
    ensures MinCutoff(b) <= MinCutoff(a)
  {}

  function FilterParams(smooth: real): (p: Params)
    ensures ValidParams(p)
  {
    Params(MinCutoff(smooth), FilterBeta, FilterDCutoff)
  }

  class TrackingEngine {
    var scale: real
    var offsetX: real
    var offsetY: real
    var offsetZ: real
    var calibrating: bool
    var calibStartTime: real
    var calibSamples: seq<Sample>
    var cameraConnected: bool
    /** The locals of `run`: whether `cap` holds a capture, `frame_count`, `confidence_sum`, `last_time`. */
    var capOpen: bool
    var frameCount: int
    var confidenceSum: real
    var lastTime: real
    /** Signals emitted so far, and OSC datagrams sent so far. */
    var events: seq<Event>
    var outbox: seq<Datagram>
    const useVmc: bool
    /** Whether the VMT and VMC clients exist (their construction did not fail). */
    const hasVmt: bool
    const hasVmc: bool
    const watchdog: W.CameraWatchdog
    const quality: Q.TrackingQualityMonitor
    const filters: FilterBank

    ghost predicate Valid()
      reads this, watchdog, quality, filters, filters.filters
    {
      && 0 <= watchdog.retries <= watchdog.maxRetries
      && quality.Valid()
      && filters.Valid()
      && frameCount >= 0
    }

    function Current(): Transform
      reads this
    {
      Transform(scale, offsetX, offsetY, offsetZ)
    }

    ghost function State(): Loop
      reads this, watchdog, quality
    {
      Loop(watchdog.Value(), cameraConnected, capOpen, Current(), calibrating, calibStartTime,
           calibSamples, frameCount, confidenceSum, lastTime, quality.Value(), events)
    }

    /**
     * `__init__`: the transform from the configuration, 100 filters with the cutoff from the
     * smoothing factor, a fresh watchdog (3 retries, 2 s delay) and a 60-entry quality window.
     * A client that fails to start leaves no client and logs an error carrying the exception's
     * text (`vmtError`, `vmcError`); the VMC client is only tried when VMC is enabled.
     */
    constructor (t: Transform, smooth: real, deviceId: int, useVmc: bool, hasVmt: bool, hasVmc: bool,
                 vmtError: string, vmcError: string)
      ensures Valid() && Current() == t && !calibrating && calibSamples == [] && !cameraConnected
      ensures watchdog.Value() == W.Fresh(W.DefaultMaxRetries, W.DefaultRetryDelay)
      ensures quality.Value() == Q.Empty(Q.DefaultWindow)
      ensures filters.params == FilterParams(smooth)
      ensures forall i :: 0 <= i < Channels ==> filters.filters[i].State() == Uninit
      ensures this.useVmc == useVmc && this.hasVmt == hasVmt && this.hasVmc == (useVmc && hasVmc)
      ensures events == (if hasVmt then [] else [Log("ERR", "VMT connection failed: " + vmtError)])
                      + (if useVmc && !hasVmc then [Log("ERR", "VMC connection failed: " + vmcError)] else [])
                      + [Log("SYS", "Tracking engine initialized")]
      ensures outbox == []
    {
      scale, offsetX, offsetY, offsetZ := t.scale, t.offsetX, t.offsetY, t.offsetZ;
      calibrating := false;
      calibStartTime := 0.0;
      calibSamples := [];
      this.useVmc := useVmc;
      this.hasVmt := hasVmt;
      this.hasVmc := useVmc && hasVmc;
      filters := new FilterBank(FilterParams(smooth));
      watchdog := new W.CameraWatchdog(deviceId, W.DefaultMaxRetries, W.DefaultRetryDelay);
      cameraConnected := false;
      quality := new Q.TrackingQualityMonitor(Q.DefaultWindow);
      capOpen := false;
      frameCount := 0;
      confidenceSum := 0.0;
      lastTime := 0.0;
      var vmtLog := if hasVmt then [] else [Log("ERR", "VMT connection failed: " + vmtError)];
      var vmcLog := if useVmc && !hasVmc then [Log("ERR", "VMC connection failed: " + vmcError)] else [];
      events := vmtLog + vmcLog + [Log("SYS", "Tracking engine initialized")];
      outbox := [];
    }

    /** `start_calibration`: a new session at `now`, emptying the samples. */
    method StartCalibration(now: real)
      requires Valid()
      modifies this
      ensures Valid() && outbox == old(outbox)
      ensures State() == Started(old(State()), now)
    {
      calibrating := true;
      calibStartTime := now;
      calibSamples := [];
      events := events + [Log("INFO", "Calibration started - stand in T-pose")];
    }

    /** `reset_filters`: every channel back to uninitialised; nothing else changes. */
    method ResetFilters()
      requires Valid()
      modifies filters.filters
      ensures Valid() && State() == old(State())
      ensures forall i :: 0 <= i < Channels ==> filters.filters[i].State() == Uninit
    {
      filters.ResetAll();
    }

    /**
     * The start of `run`: without a capture the loop is not entered and an error is logged;
     * otherwise the loop locals start out with the clock at `now`.
     */
    method BeginRun(captured: bool, now: real) returns (started: bool)
      requires Valid()
      modifies this
      ensures Valid() && started == captured && outbox == old(outbox)
      ensures !captured ==> State() == old(State()).(events := old(events) + [Log("ERR", "Failed to initialize camera")])
      ensures captured ==> State() == old(State()).(capOpen := true, frameCount := 0, confidenceSum := 0.0, lastTime := now)
    {
      if !captured {
        events := events + [Log("ERR", "Failed to initialize camera")];
        return false;
      }
      capOpen := true;
      frameCount := 0;
      confidenceSum := 0.0;
      lastTime := now;
      return true;
    }

    /**
     * One tracked joint of a frame: map the normalised landmark into room space, filter it on
     * `channel` (a missing key raises), send it to VMT tracker `tracker`, and to VMC as `bone`
     * when VMC is enabled and the joint has a bone. Only the sent datagrams change.
     */
    method TrackJoint(channel: int, tracker: int, bone: Option<string>, raw: Vec3, t: real)
      returns (r: Result<Vec3>)
      requires Valid()
      modifies this, filters.filters
      ensures Valid() && State() == old(State())
      ensures !(0 <= channel < Channels) ==> r == Err(KeyError) && outbox == old(outbox)
      ensures 0 <= channel < Channels ==>
                && r.Ok?
                && FilterOut(filters.filters[channel].State(), r.value) ==
                     FilterStep(filters.params, old(filters.filters[channel].State()), t, ToVr(Current(), raw))
                && outbox == old(outbox) + VmtSend(hasVmt, tracker, r.value, None)
                               + (if useVmc && bone.Some? then VmcSend(hasVmc, bone.value, r.value, None) else [])
      ensures forall j :: 0 <= j < Channels && j != channel ==>
                filters.filters[j].State() == old(filters.filters[j].State())
    {
      var p := ToVr(Current(), raw);
      r := filters.Apply(channel, t, p);
      if r.Err? {
        return;
      }
      outbox := outbox + VmtSend(hasVmt, tracker, r.value, None);
      if useVmc && bone.Some? {
        outbox := outbox + VmcSend(hasVmc, bone.value, r.value, None);
      }
    }

    /**
     * One iteration of `while self.running`; `crashed` reports an exception that ends `run`.
     * The new state is exactly what `LoopStep` gives.
     */
    method Step(tick: Tick) returns (crashed: bool)
      requires Valid()
      modifies this, watchdog, quality
      ensures Valid() && outbox == old(outbox)
      ensures StepResult(State(), crashed) == LoopStep(old(State()), tick)
    {
      var timedOut := watchdog.CheckFrameTimeout(tick.now);
      if timedOut {
        crashed := OnTimeout(tick.reacquired);
        return;
      }
      if !capOpen {
        // `cap.read()` on `None`
        return true;
      }
      if tick.read.ReadFail? {
        return false;
      }
      OnFrame(tick.now, tick.curr, tick.read.pose);
      return false;
    }

    /** The watchdog branch. */
    method OnTimeout(reacquired: bool) returns (crashed: bool)
      requires Valid()
      modifies this, watchdog
      ensures Valid() && outbox == old(outbox)
      ensures StepResult(State(), crashed) == TimeoutBranch(old(State()), reacquired)
    {
      if cameraConnected {
        cameraConnected := false;
        events := events + [CameraLost, Log("WARN", "Camera connection lost")];
      }
      var retry := watchdog.ShouldRetry();
      if retry {
        watchdog.IncrementRetry();
        if !capOpen {
          // `cap.release()` on `None`
          return true;
        }
        capOpen := reacquired;
        if reacquired {
          cameraConnected := true;
          events := events + [CameraRestored, Log("INFO", "Camera reconnected")];
          watchdog.Reset();
        }
      }
      return false;
    }

    /** Everything after a successful `cap.read()`. */
    method OnFrame(now: real, curr: real, pose: Option<Pose>)
      requires Valid()
      modifies this, watchdog, quality
      ensures Valid() && outbox == old(outbox)
      ensures State() == FrameBranch(old(State()), now, curr, pose)
    {
      MarkConnected(now);
      TakePose(now, pose);
      FinishCalibration(now);
      UpdateQuality(now, curr);
      EmitStatus(pose.Some?);
    }

    /** `record_frame`, and `camera_restored` if the camera was marked disconnected. */
    method MarkConnected(now: real)
      requires Valid()
      modifies this, watchdog
      ensures Valid() && outbox == old(outbox)
      ensures State() == Connect(old(State()), now)
    {
      watchdog.RecordFrame(now);
      if !cameraConnected {
        cameraConnected := true;
        events := events + [CameraRestored];
      }
    }

    /** With landmarks: the confidence sum, and a calibration sample after the warm-up. */
    method TakePose(now: real, pose: Option<Pose>)
      requires Valid()
      modifies this
      ensures Valid() && outbox == old(outbox)
      ensures State() == PosePhase(old(State()), now, pose)
    {
      confidenceSum := confidenceSum + Confidence(pose);
      if pose.Some? && calibrating && now - calibStartTime >= WarmUp {
        calibSamples := calibSamples + [SampleOf(pose.value.headY, pose.value.leftFootY, pose.value.rightFootY)];
      }
    }

    /** The status signal unless calibrating, then the frame signal. */
    method EmitStatus(active: bool)
      requires Valid()
      modifies this
      ensures Valid() && outbox == old(outbox)
      ensures State() == StatusPhase(old(State()), active)
    {
      if !calibrating {
        events := events + [Status(active)];
      }
      events := events + [FrameReady];
    }

    /** Calibration finish, when 5 s have passed since the session started. */
    method FinishCalibration(now: real)
      requires Valid()
      modifies this
      ensures Valid() && outbox == old(outbox)
      ensures State() == FinishPhase(old(State()), now)
    {
      if calibrating && now - calibStartTime >= SampleEnd {
        if |calibSamples| > 0 {
          var h := HeightNorm(calibSamples);
          if h > MinHeight {
            var t := Calibrate(calibSamples, Current());
            scale, offsetY := t.scale, t.offsetY;
            events := events + [CalibDone(scale, offsetY, offsetZ)];
          }
        }
        calibrating := false;
        events := events + [CalibStatus("calib_success", 0)];
      }
    }

    /** The frame counter, the quality record every 30th frame and the fps signal. */
    method UpdateQuality(now: real, curr: real)
      requires Valid()
      modifies this, quality
      ensures Valid() && outbox == old(outbox)
      ensures State() == QualityPhase(old(State()), now, curr)
    {
      var fps := Fps(curr - lastTime);
      CountFrame();
      RecordBatch(now, curr, fps);
      Tally(curr, fps);
    }

    /** `frame_count += 1`. */
    method CountFrame()
      requires Valid()
      modifies this
      ensures Valid() && outbox == old(outbox)
      ensures State() == old(State()).(frameCount := old(State()).frameCount + 1)
    {
      frameCount := frameCount + 1;
    }

    /** The per-frame fps signal, and `last_time` moves to this frame. */
    method Tally(curr: real, fps: int)
      requires Valid()
      modifies this
      ensures Valid() && outbox == old(outbox)
      ensures State() == old(State()).(events := old(State()).events + [FpsUpdated(fps)], lastTime := curr)
    {
      events := events + [FpsUpdated(fps)];
      lastTime := curr;
    }

    method RecordBatch(now: real, curr: real, fps: int)
      requires Valid()
      modifies this, quality
      ensures Valid() && outbox == old(outbox)
      ensures State() == BatchPhase(old(State()), now, curr, fps)
    {
      if frameCount % Batch == 0 {
        quality.Record(fps, confidenceSum / 30.0, (curr - now) * 1000.0);
        CloseBatch(quality.GetStats());
      }
    }

    /** The end of a 30-frame batch: the confidence sum restarts and the statistics are emitted. */
    method CloseBatch(stats: Q.Stats)
      requires Valid()
      modifies this
      ensures Valid() && outbox == old(outbox)
      ensures State() == old(State()).(confidenceSum := 0.0, events := old(State()).events + [QualityData(stats)])
    {
      confidenceSum := 0.0;
      events := events + [QualityData(stats)];
    }
  }
}
