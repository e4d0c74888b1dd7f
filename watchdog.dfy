/**
 * The camera watchdog: frame-stall detection and the retry budget for reconnecting.
 * The clock is a parameter `now` (seconds).
 */
module Watchdog {

  const DefaultMaxRetries: int := 3
  const DefaultRetryDelay: real := 2.0
  const FrameTimeout: real := 5.0

  /** The watchdog's fields; `lastFrameTime == 0.0` means no frame recorded since creation or reset. */
  datatype Watch = Watch(maxRetries: int, retryDelay: real, frameTimeout: real, retries: int, lastFrameTime: real)

  function Fresh(maxRetries: int, retryDelay: real): Watch {
    Watch(maxRetries, retryDelay, FrameTimeout, 0, 0.0)
  }

  /** `check_frame_timeout`. */
  predicate TimedOut(w: Watch, now: real) {
    w.lastFrameTime > 0.0 && now - w.lastFrameTime > w.frameTimeout
  }

  /** `should_retry`. */
  predicate Retryable(w: Watch) {
    w.retries < w.maxRetries
  }

  /** `record_frame`. */
  function Recorded(w: Watch, now: real): Watch {
    w.(lastFrameTime := now)
  }

  /** `increment_retry`. */
  function Retried(w: Watch): Watch {
    w.(retries := w.retries + 1)
  }

  /** `reset`. */
  function Cleared(w: Watch): Watch {
    w.(retries := 0, lastFrameTime := 0.0)
  }

  /** Right after a reset no stall is reported, however late it is. */
  lemma ClearedNeverTimedOut(w: Watch, now: real)
    ensures !TimedOut(Cleared(w), now)
    ensures Cleared(w).retries == 0
  {}

  /** After a frame is recorded at a positive time, a stall is reported exactly once more than `frame_timeout` has passed. */
  lemma RecordedTimesOut(w: Watch, t: real, now: real)
    requires t > 0.0
    ensures TimedOut(Recorded(w, t), now) <==> now - t > w.frameTimeout
  {}

  class CameraWatchdog {
    const deviceId: int
    const maxRetries: int
    const retryDelay: real
    const frameTimeout: real
    var retries: int
    var lastFrameTime: real

    ghost function Value(): Watch
      reads this
    {
      Watch(maxRetries, retryDelay, frameTimeout, retries, lastFrameTime)
    }

    constructor (deviceId: int, maxRetries: int, retryDelay: real)
      ensures Value() == Fresh(maxRetries, retryDelay)
    {
      this.deviceId := deviceId;
      this.maxRetries := maxRetries;
      this.retryDelay := retryDelay;
      retries := 0;
      lastFrameTime := 0.0;
      frameTimeout := FrameTimeout;
    }

    method CheckFrameTimeout(now: real) returns (timedOut: bool)
      ensures timedOut == TimedOut(Value(), now)
    {
      if lastFrameTime > 0.0 {
        var elapsed := now - lastFrameTime;
        return elapsed > frameTimeout;
      }
      return false;
    }

    method RecordFrame(now: real)
      modifies this
      ensures Value() == Recorded(old(Value()), now)
    {
      lastFrameTime := now;
    }

    method ShouldRetry() returns (retry: bool)
      ensures retry == Retryable(Value())
    {
      retry := retries < maxRetries;
    }

    method IncrementRetry()
      modifies this
      ensures Value() == Retried(old(Value()))
    {
      retries := retries + 1;
    }

    method Reset()
      modifies this
      ensures Value() == Cleared(old(Value()))
    {
      retries := 0;
      lastFrameTime := 0.0;
    }
  }
}
