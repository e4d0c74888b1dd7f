/**
 * One iteration of the tracking loop (`TrackingEngine.run`) as a function of the loop's state
 * and of what the outside world delivers in that iteration: the clock, the outcome of a
 * camera reacquisition, and the result of reading a frame with the pose model's answer.
 * Emitted Qt signals become events appended to a log.
 */
module EngineLoop {
  import opened Wrappers
  import opened Mapping
  import opened Averages
  import opened Calibration
  import W = Watchdog
  import Q = Quality

  /** Quality statistics are recorded once every this many frames read. */
  const Batch: int := 30
  const TrackingColor: string := "#a8ffbc"
  const SearchingColor: string := "#ffaa00"

  /** The engine's signals, in emission order. */
  datatype Event =
    | CameraLost
    | CameraRestored
    | Log(level: string, text: string)
    | CalibDone(scale: real, offsetY: real, offsetZ: real)
    | CalibStatus(key: string, progress: int)
    | FpsUpdated(fps: int)
    | QualityData(stats: Q.Stats)
    | StatusChanged(status: string, color: string)
    | FrameReady

  /**
   * What the pose model gives that the loop's control logic uses: the confidence added to
   * the running sum, and the head and ankle ys a calibration sample is made of.
   */
  datatype Pose = Pose(confidence: real, headY: real, leftFootY: real, rightFootY: real)

  /** `cap.read()`: failure, or a frame in which the pose model found landmarks or not. */
  datatype Read = ReadFail | ReadOk(pose: Option<Pose>)

  /**
   * The inputs of one iteration: `now` is the clock at the top of the iteration (used for
   * the watchdog, the calibration timing and as `frame_start`), `curr` the clock read for
   * the frame rate, `reacquired` whether `_init_camera` returns a capture if it is called.
   */
  datatype Tick = Tick(now: real, curr: real, reacquired: bool, read: Read)

  /**
   * The state the loop works on: the watchdog, the connection flag, whether `cap` holds a
   * capture, the calibration transform and session, the locals `frame_count`,
   * `confidence_sum` and `last_time` of `run`, the quality window and the emitted events.
   */
  datatype Loop = Loop(
    watch: W.Watch,
    connected: bool,
    capOpen: bool,
    transform: Transform,
    calibrating: bool,
    calibStart: real,
    samples: seq<Sample>,
    frameCount: int,
    confidenceSum: real,
    lastTime: real,
    quality: Q.Window,
    events: seq<Event>)

  /** `crashed` means an exception left `run` and the loop is over. */
  datatype StepResult = StepResult(state: Loop, crashed: bool)

  /** What every iteration keeps: the retry count within its budget and a bounded quality window. */
  predicate Inv(s: Loop) {
    && 0 <= s.watch.retries <= s.watch.maxRetries
    && Q.Bounded(s.quality)
    && s.frameCount >= 0
  }

  /** `int(1.0 / dt) if dt > 0 else 0`: the whole number of frames per second. */
  function Fps(dt: real): int {
    if dt > 0.0 then (1.0 / dt).Floor else 0
  }

  /** The reported rate is 0 for a non-positive interval, else `1 / dt` rounded down (truncation, as `1 / dt > 0`). */
  lemma FpsBounds(dt: real)
    ensures dt <= 0.0 ==> Fps(dt) == 0
    ensures dt > 0.0 ==> 0 <= Fps(dt) && Fps(dt) as real <= 1.0 / dt < (Fps(dt) + 1) as real
  {}

  /** The status signal: TRACKING exactly when landmarks were found, else SEARCHING. */
  function Status(active: bool): (r: Event)
    ensures r.StatusChanged? && (r.status == "TRACKING" <==> active)
    ensures !active ==> r.status == "SEARCHING"
  {
    if active then StatusChanged("TRACKING", TrackingColor) else StatusChanged("SEARCHING", SearchingColor)
  }

  /**
   * The watchdog branch, taken when the frame timeout is detected; the loop then continues.
   * `camera_lost` only on the connected-to-disconnected edge; a retry only while the budget
   * lasts, and it first releases `cap`, which after a failed reacquisition is `None`.
   */
  function TimeoutBranch(s: Loop, reacquired: bool): (r: StepResult)
    requires Inv(s)
    ensures Inv(r.state)
  {
    var s1 := if s.connected
      then s.(connected := false, events := s.events + [CameraLost, Log("WARN", "Camera connection lost")])
      else s;
    if !W.Retryable(s1.watch) then StepResult(s1, false)
    else
      var s2 := s1.(watch := W.Retried(s1.watch));
      if !s2.capOpen then StepResult(s2, true)
      else if reacquired then
        StepResult(s2.(capOpen := true, connected := true, watch := W.Cleared(s2.watch),
                       events := s2.events + [CameraRestored, Log("INFO", "Camera reconnected")]), false)
      else StepResult(s2.(capOpen := false), false)
  }

  /** `record_frame`, and `camera_restored` if the camera was marked disconnected. */
  function Connect(s: Loop, now: real): (r: Loop)
    requires Inv(s)
    ensures Inv(r)
  {
    var s1 := s.(watch := W.Recorded(s.watch, now));
    if s1.connected then s1 else s1.(connected := true, events := s1.events + [CameraRestored])
  }

  /** The confidence a frame adds to the running sum; without landmarks the sum is left as it is. */
  function Confidence(pose: Option<Pose>): real {
    if pose.Some? then pose.value.confidence else 0.0
  }

  /** With landmarks: add the confidence, and take a calibration sample once the warm-up is over. */
  function PosePhase(s: Loop, now: real, pose: Option<Pose>): (r: Loop)
    requires Inv(s)
    ensures Inv(r)
  {
    var s1 := s.(confidenceSum := s.confidenceSum + Confidence(pose));
    if pose.Some? && s1.calibrating && now - s1.calibStart >= WarmUp
    then s1.(samples := s1.samples + [SampleOf(pose.value.headY, pose.value.leftFootY, pose.value.rightFootY)])
    else s1
  }

  /**
   * Calibration finish, with or without landmarks in this frame. The status key is
   * "calib_success" whether or not the transform changed.
   */
  function FinishPhase(s: Loop, now: real): (r: Loop)
    requires Inv(s)
    ensures Inv(r)
  {
    if s.calibrating && now - s.calibStart >= SampleEnd then
      var t := Calibrate(s.samples, s.transform);
      var done := if Succeeds(s.samples) then [CalibDone(t.scale, t.offsetY, t.offsetZ)] else [];
      s.(transform := t, calibrating := false, events := s.events + done + [CalibStatus("calib_success", 0)])
    else s
  }

  /** The frame counter, the quality record every 30th frame, and the fps signal. */
  function QualityPhase(s: Loop, now: real, curr: real): (r: Loop)
    requires Inv(s)
    ensures Inv(r)
  {
    var fps := Fps(curr - s.lastTime);
    var s1 := BatchPhase(s.(frameCount := s.frameCount + 1), now, curr, fps);
    s1.(events := s1.events + [FpsUpdated(fps)], lastTime := curr)
  }

  /** On every 30th frame: record fps, mean confidence over 30 frames and latency, emit the statistics. */
  function BatchPhase(s: Loop, now: real, curr: real, fps: int): (r: Loop)
    requires Inv(s)
    ensures Inv(r)
  {
    if s.frameCount % Batch == 0 then
      var w := Q.Recorded(s.quality, fps, s.confidenceSum / 30.0, (curr - now) * 1000.0);
      s.(confidenceSum := 0.0, quality := w, events := s.events + [QualityData(Q.StatsOf(w))])
    else s
  }

  /** The status signal, withheld while calibrating, then the frame signal. */
  function StatusPhase(s: Loop, active: bool): (r: Loop)
    requires Inv(s)
    ensures Inv(r)
  {
    var status := if s.calibrating then [] else [Status(active)];
    s.(events := s.events + status + [FrameReady])
  }

  /** Everything after a successful read. Tracking is active when the pose model found landmarks. */
  function FrameBranch(s: Loop, now: real, curr: real, pose: Option<Pose>): (r: Loop)
    requires Inv(s)
    ensures Inv(r)
  {
    StatusPhase(QualityPhase(FinishPhase(PosePhase(Connect(s, now), now, pose), now), now, curr), pose.Some?)
  }

  /**
   * One iteration of `while self.running`. Reading from a `cap` that is `None` raises, as
   * does releasing it in the watchdog branch; both end the loop.
   */
  function LoopStep(s: Loop, tick: Tick): (r: StepResult)
    requires Inv(s)
    ensures Inv(r.state)
  {
    if W.TimedOut(s.watch, tick.now) then TimeoutBranch(s, tick.reacquired)
    else if !s.capOpen then StepResult(s, true)
    else
      match tick.read
      case ReadFail => StepResult(s, false)
      case ReadOk(pose) => StepResult(FrameBranch(s, tick.now, tick.curr, pose), false)
  }

  /** Iterations one after another, until the ticks run out or an exception ends the loop. */
  function Run(s: Loop, ticks: seq<Tick>): (r: StepResult)
    requires Inv(s)
    ensures Inv(r.state)
    decreases |ticks|
  {
    if ticks == [] then StepResult(s, false)
    else
      var r := LoopStep(s, ticks[0]);
      if r.crashed then r else Run(r.state, ticks[1..])
  }

  function Count(e: Event, es: seq<Event>): nat {
    if es == [] then 0 else (if es[0] == e then 1 else 0) + Count(e, es[1..])
  }

  lemma {:induction false} CountAppend(e: Event, a: seq<Event>, b: seq<Event>)
    ensures Count(e, a + b) == Count(e, a) + Count(e, b)
  {
    if a == [] {
      assert a + b == b;
    } else {
      CountAppend(e, a[1..], b);
      assert (a + b)[1..] == a[1..] + b;
    }
  }

  lemma {:induction false} CountAbsent(e: Event, x: seq<Event>)
    requires e !in x
    ensures Count(e, x) == 0
  {
    if x != [] {
      assert x == [x[0]] + x[1..];
      CountAbsent(e, x[1..]);
    }
  }

  /** Appending events other than `e` leaves the count of `e` alone. */
  lemma CountUnchanged(e: Event, a: seq<Event>, x: seq<Event>)
    requires e !in x
    ensures Count(e, a + x) == Count(e, a)
  {
    CountAppend(e, a, x);
    CountAbsent(e, x);
  }

  /** How many `calib_done` signals, whatever their values. */
  function DoneCount(es: seq<Event>): nat {
    if es == [] then 0 else (if es[0].CalibDone? then 1 else 0) + DoneCount(es[1..])
  }

  lemma {:induction false} DoneCountAppend(a: seq<Event>, b: seq<Event>)
    ensures DoneCount(a + b) == DoneCount(a) + DoneCount(b)
  {
    if a == [] {
      assert a + b == b;
    } else {
      DoneCountAppend(a[1..], b);
      assert (a + b)[1..] == a[1..] + b;
    }
  }

  /** Neither a `calib_done` nor a `calib_status` signal. */
  predicate CalibFree(x: seq<Event>) {
    forall i :: 0 <= i < |x| ==> !x[i].CalibDone? && !x[i].CalibStatus?
  }

  lemma {:induction false} DoneCountFree(x: seq<Event>)
    requires CalibFree(x)
    ensures DoneCount(x) == 0
  {
    if x != [] {
      assert CalibFree(x[1..]) by {
        forall i | 0 <= i < |x[1..]| ensures !x[1..][i].CalibDone? && !x[1..][i].CalibStatus? {
          assert x[1..][i] == x[i + 1];
        }
      }
      DoneCountFree(x[1..]);
    }
  }

  // ---------------------------------------------------------------------------------------
  // What each phase of a frame leaves alone

  lemma ConnectNoLost(s: Loop, now: real)
    requires Inv(s)
    ensures Count(CameraLost, Connect(s, now).events) == Count(CameraLost, s.events)
  {
    CountUnchanged(CameraLost, s.events, [CameraRestored]);
    assert s.events + [] == s.events;
  }

  lemma FinishNoLost(s: Loop, now: real)
    requires Inv(s)
    ensures Count(CameraLost, FinishPhase(s, now).events) == Count(CameraLost, s.events)
  {
    if s.calibrating && now - s.calibStart >= SampleEnd {
      var t := Calibrate(s.samples, s.transform);
      var done := if Succeeds(s.samples) then [CalibDone(t.scale, t.offsetY, t.offsetZ)] else [];
      CountUnchanged(CameraLost, s.events, done + [CalibStatus("calib_success", 0)]);
      assert FinishPhase(s, now).events == s.events + (done + [CalibStatus("calib_success", 0)]);
    }
  }

  lemma QualityNoLost(s: Loop, now: real, curr: real)
    requires Inv(s)
    ensures Count(CameraLost, QualityPhase(s, now, curr).events) == Count(CameraLost, s.events)
  {
    var fps := Fps(curr - s.lastTime);
    var b := BatchPhase(s.(frameCount := s.frameCount + 1), now, curr, fps);
    if (s.frameCount + 1) % Batch == 0 {
      var w := Q.Recorded(s.quality, fps, s.confidenceSum / 30.0, (curr - now) * 1000.0);
      CountUnchanged(CameraLost, s.events, [QualityData(Q.StatsOf(w))]);
      assert b.events == s.events + [QualityData(Q.StatsOf(w))];
    }
    CountUnchanged(CameraLost, b.events, [FpsUpdated(fps)]);
  }

  lemma StatusNoLost(s: Loop, active: bool)
    requires Inv(s)
    ensures Count(CameraLost, StatusPhase(s, active).events) == Count(CameraLost, s.events)
  {
    var status := if s.calibrating then [] else [Status(active)];
    CountUnchanged(CameraLost, s.events, status + [FrameReady]);
    assert StatusPhase(s, active).events == s.events + (status + [FrameReady]);
  }

  /** A frame that is read never emits `camera_lost`. */
  lemma FrameNoLost(s: Loop, now: real, curr: real, pose: Option<Pose>)
    requires Inv(s)
    ensures Count(CameraLost, FrameBranch(s, now, curr, pose).events) == Count(CameraLost, s.events)
  {
    var a := Connect(s, now);
    ConnectNoLost(s, now);
    var b := PosePhase(a, now, pose);
    assert b.events == a.events;
    var c := FinishPhase(b, now);
    FinishNoLost(b, now);
    var d := QualityPhase(c, now, curr);
    QualityNoLost(c, now, curr);
    StatusNoLost(d, pose.Some?);
  }

  /**
   * A frame that is read records the frame time, marks the camera connected and counts the
   * frame; it never touches `cap`, the retry count, or the x and z offsets.
   */
  lemma FrameFacts(s: Loop, now: real, curr: real, pose: Option<Pose>)
    requires Inv(s)
    ensures var r := FrameBranch(s, now, curr, pose);
            && r.watch == W.Recorded(s.watch, now) && r.connected && r.capOpen == s.capOpen
            && r.transform.offsetX == s.transform.offsetX && r.transform.offsetZ == s.transform.offsetZ
            && r.frameCount == s.frameCount + 1 && r.lastTime == curr
  {
    var a := Connect(s, now);
    assert a.watch == W.Recorded(s.watch, now) && a.connected && a.capOpen == s.capOpen;
    assert a.transform == s.transform && a.frameCount == s.frameCount;
    var b := PosePhase(a, now, pose);
    assert b.watch == a.watch && b.connected && b.capOpen == a.capOpen;
    assert b.transform == a.transform && b.frameCount == a.frameCount;
    var c := FinishPhase(b, now);
    assert c.watch == b.watch && c.connected && c.capOpen == b.capOpen && c.frameCount == b.frameCount;
    assert c.transform.offsetX == s.transform.offsetX && c.transform.offsetZ == s.transform.offsetZ;
    var d := QualityPhase(c, now, curr);
    assert d.watch == c.watch && d.connected && d.capOpen == c.capOpen && d.transform == c.transform;
    assert d.frameCount == c.frameCount + 1 && d.lastTime == curr;
    var e := StatusPhase(d, pose.Some?);
    assert e.watch == d.watch && e.connected && e.capOpen == d.capOpen && e.transform == d.transform;
    assert e.frameCount == d.frameCount && e.lastTime == d.lastTime;
  }

  // ---------------------------------------------------------------------------------------
  // The watchdog and the reconnection logic

  /**
   * `camera_lost` is edge-triggered: one iteration emits it exactly when the camera was
   * marked connected and the frame timeout is detected.
   */
  lemma LostOnlyOnEdge(s: Loop, tick: Tick)
    requires Inv(s)
    ensures var r := LoopStep(s, tick);
            Count(CameraLost, r.state.events) ==
              Count(CameraLost, s.events) + (if s.connected && W.TimedOut(s.watch, tick.now) then 1 else 0)
  {
    var es := s.events;
    if W.TimedOut(s.watch, tick.now) {
      var s1 := if s.connected
        then s.(connected := false, events := es + [CameraLost, Log("WARN", "Camera connection lost")])
        else s;
      CountAppend(CameraLost, es, [CameraLost, Log("WARN", "Camera connection lost")]);
      CountUnchanged(CameraLost, s1.events, [CameraRestored, Log("INFO", "Camera reconnected")]);
    } else if s.capOpen && tick.read.ReadOk? {
      FrameNoLost(s, tick.now, tick.curr, tick.read.pose);
    }
  }

  /** The state after the watchdog branch is connected only right after a successful reconnect, which clears the frame time. */
  lemma ConnectedAfterTimeoutIsCleared(s: Loop, reacquired: bool)
    requires Inv(s)
    ensures var r := TimeoutBranch(s, reacquired).state;
            r.connected ==> r.watch.lastFrameTime == 0.0 && r.watch.retries == 0
  {}

  /** Every tick of the run meets a detected frame timeout (until the run ends in an exception). */
  predicate AllTimedOut(s: Loop, ticks: seq<Tick>)
    requires Inv(s)
    decreases |ticks|
  {
    ticks == [] ||
      (W.TimedOut(s.watch, ticks[0].now) &&
       var r := LoopStep(s, ticks[0]);
       r.crashed || AllTimedOut(r.state, ticks[1..]))
  }

  /**
   * Across any run of consecutive iterations that all detect the frame timeout, `camera_lost`
   * fires exactly once if the camera was connected before the run, and never otherwise.
   */
  lemma {:induction false} OneLostPerOutage(s: Loop, ticks: seq<Tick>)
    requires Inv(s) && AllTimedOut(s, ticks)
    ensures Count(CameraLost, Run(s, ticks).state.events) ==
              Count(CameraLost, s.events) + (if s.connected && ticks != [] then 1 else 0)
    decreases |ticks|
  {
    if ticks != [] {
      var r := LoopStep(s, ticks[0]);
      assert r == TimeoutBranch(s, ticks[0].reacquired);
      LostOnlyOnEdge(s, ticks[0]);
      ConnectedAfterTimeoutIsCleared(s, ticks[0].reacquired);
      if !r.crashed {
        if r.state.connected {
          assert ticks[1..] == [];
        } else {
          OneLostPerOutage(r.state, ticks[1..]);
        }
      }
    }
  }

  /**
   * One iteration changes the retry count only by the watchdog branch: up by one while
   * `should_retry` holds, or back to 0 after a successful reacquisition, which also marks
   * the camera connected.
   */
  lemma RetryCountChanges(s: Loop, tick: Tick)
    requires Inv(s)
    ensures var r := LoopStep(s, tick).state;
            && (r.watch.retries > s.watch.retries ==>
                  r.watch.retries == s.watch.retries + 1 && W.Retryable(s.watch) && W.TimedOut(s.watch, tick.now))
            && (r.watch.retries < s.watch.retries ==>
                  r.watch.retries == 0 && r.connected && tick.reacquired && W.TimedOut(s.watch, tick.now))
  {
    if W.TimedOut(s.watch, tick.now) {
      assert LoopStep(s, tick) == TimeoutBranch(s, tick.reacquired);
    } else if s.capOpen && tick.read.ReadOk? {
      assert LoopStep(s, tick).state == FrameBranch(s, tick.now, tick.curr, tick.read.pose);
      FrameFacts(s, tick.now, tick.curr, tick.read.pose);
    }
  }

  /** The camera is disconnected, the retry budget is spent and the last frame is long gone. */
  predicate Exhausted(s: Loop) {
    !s.connected && s.watch.retries >= s.watch.maxRetries && s.watch.lastFrameTime > 0.0
  }

  /**
   * Once the retries are exhausted, every later iteration (at a clock past the frame timeout)
   * takes the watchdog branch and changes nothing at all: the loop spins without end, no
   * more reconnection is tried and the retry count stays put.
   */
  lemma {:induction false} ExhaustedSpins(s: Loop, ticks: seq<Tick>)
    requires Inv(s) && Exhausted(s)
    requires forall i :: 0 <= i < |ticks| ==> ticks[i].now - s.watch.lastFrameTime > s.watch.frameTimeout
    ensures Run(s, ticks) == StepResult(s, false)
    decreases |ticks|
  {
    if ticks != [] {
      assert LoopStep(s, ticks[0]) == TimeoutBranch(s, ticks[0].reacquired) == StepResult(s, false);
      ExhaustedSpins(s, ticks[1..]);
    }
  }

  /**
   * Where `run` can be between iterations: holding a capture with no retry spent, or, right
   * after one failed reacquisition, without a capture and with one retry spent.
   */
  predicate Attainable(s: Loop) {
    (s.capOpen && s.watch.retries == 0) || (!s.capOpen && s.watch.retries == 1)
  }

  lemma StepAttainable(s: Loop, tick: Tick)
    requires Inv(s) && Attainable(s)
    ensures var r := LoopStep(s, tick);
            !r.crashed ==> Attainable(r.state) && r.state.watch.maxRetries == s.watch.maxRetries
  {
    if W.TimedOut(s.watch, tick.now) {
      assert LoopStep(s, tick) == TimeoutBranch(s, tick.reacquired);
    } else if s.capOpen && tick.read.ReadOk? {
      FrameFacts(s, tick.now, tick.curr, tick.read.pose);
    }
  }

  /**
   * With a budget of two retries or more (the engine's is 3), the exhausted state is never
   * reached: a failed reacquisition is followed either by a frame-less iteration or a second
   * timeout, and both raise, while a successful one clears the count. So from a held capture
   * with no retry spent, every iteration `run` survives leaves at most one retry spent.
   */
  lemma {:induction false} NeverExhausted(s: Loop, ticks: seq<Tick>)
    requires Inv(s) && Attainable(s) && s.watch.maxRetries >= 2
    ensures var r := Run(s, ticks);
            !r.crashed ==> r.state.watch.retries <= 1 < r.state.watch.maxRetries && !Exhausted(r.state)
    decreases |ticks|
  {
    if ticks != [] {
      var r := LoopStep(s, ticks[0]);
      StepAttainable(s, ticks[0]);
      if !r.crashed {
        NeverExhausted(r.state, ticks[1..]);
      }
    }
  }

  /**
   * A failed reacquisition leaves `cap` as `None`; if the next iteration still times out and
   * the budget allows another retry, `cap.release()` raises and ends the loop. With the
   * default budget of 3 the loop therefore ends after the second attempt, with retries at 2.
   */
  lemma FailedReacquireEndsLoop(s: Loop, t1: Tick, t2: Tick)
    requires Inv(s) && s.capOpen
    requires W.TimedOut(s.watch, t1.now) && !t1.reacquired && W.TimedOut(s.watch, t2.now)
    requires s.watch.retries + 2 <= s.watch.maxRetries
    ensures Run(s, [t1, t2]).crashed
    ensures Run(s, [t1, t2]).state.watch.retries == s.watch.retries + 2
  {
    var r := LoopStep(s, t1);
    assert r == TimeoutBranch(s, t1.reacquired);
    assert !r.crashed && !r.state.capOpen && r.state.watch.lastFrameTime == s.watch.lastFrameTime;
    assert LoopStep(r.state, t2) == TimeoutBranch(r.state, t2.reacquired);
    assert [t1, t2][1..] == [t2];
  }

  // ---------------------------------------------------------------------------------------
  // Calibration, quality cadence and status gating

  lemma StepKeepsOffsets(s: Loop, tick: Tick)
    requires Inv(s)
    ensures LoopStep(s, tick).state.transform.offsetX == s.transform.offsetX
    ensures LoopStep(s, tick).state.transform.offsetZ == s.transform.offsetZ
  {
    if W.TimedOut(s.watch, tick.now) {
      assert LoopStep(s, tick) == TimeoutBranch(s, tick.reacquired);
    } else if s.capOpen && tick.read.ReadOk? {
      assert LoopStep(s, tick).state == FrameBranch(s, tick.now, tick.curr, tick.read.pose);
      FrameFacts(s, tick.now, tick.curr, tick.read.pose);
    }
  }

  /** The x and z offsets are never changed by the loop, over any number of iterations. */
  lemma {:induction false} OffsetsXZUnchanged(s: Loop, ticks: seq<Tick>)
    requires Inv(s)
    ensures Run(s, ticks).state.transform.offsetX == s.transform.offsetX
    ensures Run(s, ticks).state.transform.offsetZ == s.transform.offsetZ
    decreases |ticks|
  {
    if ticks != [] {
      var r := LoopStep(s, ticks[0]);
      StepKeepsOffsets(s, ticks[0]);
      if !r.crashed {
        OffsetsXZUnchanged(r.state, ticks[1..]);
      }
    }
  }

  /**
   * The calibration signals of a read frame: the frame emits one `calib_status` exactly when
   * the calibration finishes in it, and one `calib_done`, carrying the new transform, exactly
   * when that calibration also succeeds. No other signal of the frame is either.
   */
  lemma FrameSignals(s: Loop, now: real, curr: real, pose: Option<Pose>)
    requires Inv(s)
    ensures var b := PosePhase(Connect(s, now), now, pose);
            var r := FrameBranch(s, now, curr, pose);
            var finished := b.calibrating && now - b.calibStart >= SampleEnd;
            var t := Calibrate(b.samples, b.transform);
            && Count(CalibStatus("calib_success", 0), r.events)
               == Count(CalibStatus("calib_success", 0), s.events) + (if finished then 1 else 0)
            && DoneCount(r.events) == DoneCount(s.events) + (if finished && Succeeds(b.samples) then 1 else 0)
            && (finished && Succeeds(b.samples) ==>
                  Count(CalibDone(t.scale, t.offsetY, t.offsetZ), r.events)
                  == Count(CalibDone(t.scale, t.offsetY, t.offsetZ), s.events) + 1)
  {
    var b := PosePhase(Connect(s, now), now, pose);
    var t := Calibrate(b.samples, b.transform);
    var pre, post := FrameEvents(s, now, curr, pose);
    SplitSignals(s.events, pre, post, b.calibrating && now - b.calibStart >= SampleEnd,
                 Succeeds(b.samples), CalibDone(t.scale, t.offsetY, t.offsetZ));
  }

  /** The signals `FinishPhase` adds: `calib_done` on success, then `calib_status`, once finished. */
  function FinishSignals(finished: bool, succeeds: bool, done: Event): seq<Event> {
    if finished then (if succeeds then [done] else []) + [CalibStatus("calib_success", 0)] else []
  }

  /** A read frame's signals: some before the calibration finish and some after, none of them calibration signals. */
  lemma FrameEvents(s: Loop, now: real, curr: real, pose: Option<Pose>) returns (pre: seq<Event>, post: seq<Event>)
    requires Inv(s)
    ensures var b := PosePhase(Connect(s, now), now, pose);
            var t := Calibrate(b.samples, b.transform);
            && CalibFree(pre) && CalibFree(post)
            && FrameBranch(s, now, curr, pose).events
               == s.events + pre
                  + FinishSignals(b.calibrating && now - b.calibStart >= SampleEnd, Succeeds(b.samples),
                                  CalibDone(t.scale, t.offsetY, t.offsetZ))
                  + post
  {
    var a := Connect(s, now);
    pre := ConnectEvents(s, now);
    var b := PosePhase(a, now, pose);
    var c := FinishPhase(b, now);
    var t := Calibrate(b.samples, b.transform);
    var fin := FinishSignals(b.calibrating && now - b.calibStart >= SampleEnd, Succeeds(b.samples),
                             CalibDone(t.scale, t.offsetY, t.offsetZ));
    FinishEvents(b, now);
    var d := QualityPhase(c, now, curr);
    var q := QualityEvents(c, now, curr);
    var st := StatusEvents(d, pose.Some?);
    post := q + st;
    FreeConcat(q, st);
    var es := s.events;
    assert b.events == es + pre;
    assert c.events == es + pre + fin;
    assert d.events == es + pre + fin + q;
    assert FrameBranch(s, now, curr, pose) == StatusPhase(d, pose.Some?);
    Regroup(es + pre + fin, q, st);
  }

  lemma Regroup(x: seq<Event>, y: seq<Event>, z: seq<Event>)
    ensures x + y + z == x + (y + z)
  {
  }

  lemma FreeConcat(x: seq<Event>, y: seq<Event>)
    requires CalibFree(x) && CalibFree(y)
    ensures CalibFree(x + y)
  {
    forall i | 0 <= i < |x + y| ensures !(x + y)[i].CalibDone? && !(x + y)[i].CalibStatus? {
      if i < |x| { assert (x + y)[i] == x[i]; } else { assert (x + y)[i] == y[i - |x|]; }
    }
  }

  lemma ConnectEvents(s: Loop, now: real) returns (pre: seq<Event>)
    requires Inv(s)
    ensures CalibFree(pre) && Connect(s, now).events == s.events + pre
  {
    pre := if s.connected then [] else [CameraRestored];
  }

  lemma FinishEvents(s: Loop, now: real)
    requires Inv(s)
    ensures var t := Calibrate(s.samples, s.transform);
            FinishPhase(s, now).events
            == s.events + FinishSignals(s.calibrating && now - s.calibStart >= SampleEnd, Succeeds(s.samples),
                                        CalibDone(t.scale, t.offsetY, t.offsetZ))
  {}

  lemma QualityEvents(s: Loop, now: real, curr: real) returns (q: seq<Event>)
    requires Inv(s)
    ensures CalibFree(q) && QualityPhase(s, now, curr).events == s.events + q
  {
    var fps := Fps(curr - s.lastTime);
    var w := BatchEvents(s.(frameCount := s.frameCount + 1), now, curr, fps);
    q := w + [FpsUpdated(fps)];
  }

  lemma BatchEvents(s: Loop, now: real, curr: real, fps: int) returns (w: seq<Event>)
    requires Inv(s)
    ensures CalibFree(w) && BatchPhase(s, now, curr, fps).events == s.events + w
  {
    var r := BatchPhase(s, now, curr, fps);
    if s.frameCount % Batch == 0 {
      w := [QualityData(Q.StatsOf(r.quality))];
    } else {
      w := [];
    }
  }

  lemma StatusEvents(s: Loop, active: bool) returns (st: seq<Event>)
    requires Inv(s)
    ensures CalibFree(st) && StatusPhase(s, active).events == s.events + st
  {
    st := (if s.calibrating then [] else [Status(active)]) + [FrameReady];
  }

  /** Counting the calibration signals of `old + pre + FinishSignals(..) + post`. */
  lemma SplitSignals(es: seq<Event>, pre: seq<Event>, post: seq<Event>, finished: bool, succeeds: bool, done: Event)
    requires CalibFree(pre) && CalibFree(post) && done.CalibDone?
    ensures var all := es + pre + FinishSignals(finished, succeeds, done) + post;
            && Count(CalibStatus("calib_success", 0), all)
               == Count(CalibStatus("calib_success", 0), es) + (if finished then 1 else 0)
            && DoneCount(all) == DoneCount(es) + (if finished && succeeds then 1 else 0)
            && (finished && succeeds ==> Count(done, all) == Count(done, es) + 1)
  {
    var fin := FinishSignals(finished, succeeds, done);
    var cs := CalibStatus("calib_success", 0);
    var d: seq<Event> := if succeeds then [done] else [];
    CountUnchanged(cs, es, pre);
    CountAppend(cs, es + pre, fin);
    CountUnchanged(cs, es + pre + fin, post);
    DoneCountAppend(es, pre);
    DoneCountFree(pre);
    DoneCountAppend(es + pre, fin);
    DoneCountAppend(es + pre + fin, post);
    DoneCountFree(post);
    if finished {
      CountAppend(cs, d, [cs]);
      CountAbsent(cs, d);
      DoneCountAppend(d, [cs]);
      if succeeds {
        CountUnchanged(done, es, pre);
        CountAppend(done, es + pre, fin);
        CountUnchanged(done, es + pre + fin, post);
        CountUnchanged(done, d, [cs]);
      }
    }
  }

  /**
   * A frame that is read: a sample is appended exactly when landmarks were found, a
   * calibration is running and at least 3 s have passed since it started; the calibration
   * ends exactly when 5 s have passed, and then sets the transform by `Calibrate` and emits
   * one `calib_status`, plus one `calib_done` with the new transform exactly when it
   * succeeds; otherwise the transform is untouched and neither signal is emitted.
   */
  lemma CalibrationOnFrame(s: Loop, tick: Tick)
    requires Inv(s) && !W.TimedOut(s.watch, tick.now) && s.capOpen && tick.read.ReadOk?
    ensures var r := LoopStep(s, tick).state;
            var elapsed := tick.now - s.calibStart;
            var sampled := s.calibrating && elapsed >= WarmUp && tick.read.pose.Some?;
            var samples := if sampled then s.samples + [SampleOf(tick.read.pose.value.headY,
                             tick.read.pose.value.leftFootY, tick.read.pose.value.rightFootY)] else s.samples;
            var finished := s.calibrating && elapsed >= SampleEnd;
            && r.samples == samples
            && r.calibrating == (s.calibrating && !finished)
            && (finished ==> r.transform == Calibrate(samples, s.transform))
            && (!finished ==> r.transform == s.transform)
            && Count(CalibStatus("calib_success", 0), r.events)
               == Count(CalibStatus("calib_success", 0), s.events) + (if finished then 1 else 0)
            && DoneCount(r.events) == DoneCount(s.events) + (if finished && Succeeds(samples) then 1 else 0)
            && (finished && Succeeds(samples) ==>
                  Count(CalibDone(r.transform.scale, r.transform.offsetY, r.transform.offsetZ), r.events)
                  == Count(CalibDone(r.transform.scale, r.transform.offsetY, r.transform.offsetZ), s.events) + 1)
  {
    FrameSignals(s, tick.now, tick.curr, tick.read.pose);
    var now, curr, pose := tick.now, tick.curr, tick.read.pose;
    var a := Connect(s, now);
    var b := PosePhase(a, now, pose);
    var c := FinishPhase(b, now);
    var d := QualityPhase(c, now, curr);
    var e := StatusPhase(d, pose.Some?);
    assert LoopStep(s, tick).state == e;
    assert a.samples == s.samples && a.calibrating == s.calibrating && a.calibStart == s.calibStart;
    assert a.transform == s.transform;
    assert b.calibrating == s.calibrating && b.calibStart == s.calibStart && b.transform == s.transform;
    assert d.samples == c.samples && d.calibrating == c.calibrating && d.transform == c.transform;
    assert c.events <= d.events;
    assert e.samples == d.samples && e.calibrating == d.calibrating && e.transform == d.transform;
    assert d.events <= e.events;
  }

  /**
   * `status_changed` is withheld while a calibration is running: on every frame read the
   * last event is `frame_ready`, and the one before it is the tracking status exactly when
   * the loop is not calibrating after this frame.
   */
  lemma StatusOnlyWhenNotCalibrating(s: Loop, tick: Tick)
    requires Inv(s) && !W.TimedOut(s.watch, tick.now) && s.capOpen && tick.read.ReadOk?
    ensures var r := LoopStep(s, tick).state;
            var es := r.events;
            && |es| >= 2 && es[|es| - 1] == FrameReady
            && (es[|es| - 2] == Status(tick.read.pose.Some?) <==> !r.calibrating)
  {
    var now, curr, pose := tick.now, tick.curr, tick.read.pose;
    var d := QualityPhase(FinishPhase(PosePhase(Connect(s, now), now, pose), now), now, curr);
    assert LoopStep(s, tick).state == StatusPhase(d, pose.Some?);
    assert |d.events| >= 1 && d.events[|d.events| - 1].FpsUpdated?;
  }

  /** Iterations that read no frame (a timeout, a failed read) neither count a frame nor record quality. */
  lemma QualityIdle(s: Loop, tick: Tick)
    requires Inv(s) && !(!W.TimedOut(s.watch, tick.now) && s.capOpen && tick.read.ReadOk?)
    ensures var r := LoopStep(s, tick).state;
            r.frameCount == s.frameCount && r.quality == s.quality && r.confidenceSum == s.confidenceSum
  {
    if W.TimedOut(s.watch, tick.now) {
      assert LoopStep(s, tick) == TimeoutBranch(s, tick.reacquired);
    }
  }

  /**
   * Quality records happen once every 30 frames read: a read frame adds one to the frame
   * counter; the window can change, and the confidence sum restarts from 0, only when the
   * new count is a multiple of 30 (what is recorded then is `QualityPhaseCadence`).
   */
  lemma QualityCadence(s: Loop, tick: Tick)
    requires Inv(s) && !W.TimedOut(s.watch, tick.now) && s.capOpen && tick.read.ReadOk?
    ensures var r := LoopStep(s, tick).state;
            && r.frameCount == s.frameCount + 1
            && (r.frameCount % Batch == 0 ==> r.confidenceSum == 0.0)
            && (r.frameCount % Batch != 0 ==>
                  r.quality == s.quality && r.confidenceSum == s.confidenceSum + Confidence(tick.read.pose))
  {
    var now, curr, pose := tick.now, tick.curr, tick.read.pose;
    var c := FinishPhase(PosePhase(Connect(s, now), now, pose), now);
    assert c.frameCount == s.frameCount && c.quality == s.quality;
    assert c.confidenceSum == s.confidenceSum + Confidence(pose);
    var d := QualityPhase(c, now, curr);
    QualityPhaseCadence(c, now, curr);
    assert LoopStep(s, tick).state == StatusPhase(d, pose.Some?);
  }

  /**
   * The quality phase itself: on every 30th frame the window records this frame's rate, the
   * confidence sum divided by 30 and the latency in milliseconds, and the sum restarts from 0.
   */
  lemma QualityPhaseCadence(s: Loop, now: real, curr: real)
    requires Inv(s)
    ensures var r := QualityPhase(s, now, curr);
            && r.frameCount == s.frameCount + 1
            && r.lastTime == curr
            && (r.frameCount % Batch == 0 ==>
                  r.quality == Q.Recorded(s.quality, Fps(curr - s.lastTime), s.confidenceSum / 30.0, (curr - now) * 1000.0)
                  && r.confidenceSum == 0.0)
            && (r.frameCount % Batch != 0 ==> r.quality == s.quality && r.confidenceSum == s.confidenceSum)
  {}

  /** `start_calibration`: a new session starting at `now`, with no samples, whether or not one was running. */
  function Started(s: Loop, now: real): (r: Loop)
    ensures r.calibrating && r.calibStart == now && r.samples == []
    ensures r.watch == s.watch && r.transform == s.transform && r.quality == s.quality
    ensures r.events == s.events + [Log("INFO", "Calibration started - stand in T-pose")]
  {
    s.(calibrating := true, calibStart := now, samples := [],
       events := s.events + [Log("INFO", "Calibration started - stand in T-pose")])
  }

  lemma WarmUpStep(s: Loop, start: real, tick: Tick)
    requires Inv(s) && s.calibrating && s.calibStart == start && s.samples == []
    requires tick.now - start < WarmUp
    ensures var r := LoopStep(s, tick).state;
            r.calibrating && r.calibStart == start && r.samples == [] && r.transform == s.transform
  {
    if W.TimedOut(s.watch, tick.now) {
      assert LoopStep(s, tick) == TimeoutBranch(s, tick.reacquired);
    } else if s.capOpen && tick.read.ReadOk? {
      var now, curr, pose := tick.now, tick.curr, tick.read.pose;
      var b := PosePhase(Connect(s, now), now, pose);
      assert b.calibrating && b.calibStart == start && b.samples == [] && b.transform == s.transform;
      var c := FinishPhase(b, now);
      assert c == b;
      var d := QualityPhase(c, now, curr);
      assert d.calibrating && d.calibStart == start && d.samples == [] && d.transform == s.transform;
      assert LoopStep(s, tick).state == StatusPhase(d, pose.Some?);
    }
  }

  /**
   * During the 3-second warm-up after `start_calibration` no sample is taken and the session
   * keeps running, whatever the iterations bring (timeouts, failed reads, frames).
   */
  lemma {:induction false} WarmUpTakesNoSamples(s: Loop, start: real, ticks: seq<Tick>)
    requires Inv(s) && s.calibrating && s.calibStart == start && s.samples == []
    requires forall i :: 0 <= i < |ticks| ==> ticks[i].now - start < WarmUp
    ensures var r := Run(s, ticks).state;
            r.calibrating && r.calibStart == start && r.samples == [] && r.transform == s.transform
    decreases |ticks|
  {
    if ticks != [] {
      var r := LoopStep(s, ticks[0]);
      WarmUpStep(s, start, ticks[0]);
      if !r.crashed {
        WarmUpTakesNoSamples(r.state, start, ticks[1..]);
      }
    }
  }
}
