/**
 * The tracking-quality monitor: three parallel histories (fps, confidence, latency) kept to
 * the last `window_size` records, and their summary statistics.
 */
module Quality {
  import opened Averages

  const DefaultWindow: int := 60

  datatype Window = Window(size: int, fps: seq<int>, confidence: seq<real>, latency: seq<real>)

  function Empty(size: int): Window {
    Window(size, [], [], [])
  }

  /** The most entries a window of this size holds (a negative size keeps none). */
  function Capacity(size: int): nat {
    if size < 0 then 0 else size
  }

  /** The three histories have one entry per record and at most `Capacity(size)` of them. */
  predicate Bounded(w: Window) {
    |w.fps| == |w.confidence| == |w.latency| <= Capacity(w.size)
  }

  /** `record`: append to all three, then drop index 0 of each once the fps history is too long. */
  function Recorded(w: Window, fps: int, confidence: real, latency: real): (r: Window)
    requires Bounded(w)
    ensures Bounded(r) && r.size == w.size
  {
    var f, c, l := w.fps + [fps], w.confidence + [confidence], w.latency + [latency];
    if |f| > w.size then Window(w.size, f[1..], c[1..], l[1..]) else Window(w.size, f, c, l)
  }

  datatype Record = Record(fps: int, confidence: real, latency: real)

  /** The window after a sequence of records, oldest first. */
  function RecordAll(w: Window, rs: seq<Record>): (r: Window)
    requires Bounded(w)
    ensures Bounded(r) && r.size == w.size
  {
    if rs == [] then w
    else
      var last := rs[|rs| - 1];
      Recorded(RecordAll(w, rs[..|rs| - 1]), last.fps, last.confidence, last.latency)
  }

  function FpsOf(rs: seq<Record>): (r: seq<int>)
    ensures |r| == |rs| && forall i :: 0 <= i < |rs| ==> r[i] == rs[i].fps
  {
    if rs == [] then [] else FpsOf(rs[..|rs| - 1]) + [rs[|rs| - 1].fps]
  }

  function ConfidenceOf(rs: seq<Record>): (r: seq<real>)
    ensures |r| == |rs| && forall i :: 0 <= i < |rs| ==> r[i] == rs[i].confidence
  {
    if rs == [] then [] else ConfidenceOf(rs[..|rs| - 1]) + [rs[|rs| - 1].confidence]
  }

  function LatencyOf(rs: seq<Record>): (r: seq<real>)
    ensures |r| == |rs| && forall i :: 0 <= i < |rs| ==> r[i] == rs[i].latency
  {
    if rs == [] then [] else LatencyOf(rs[..|rs| - 1]) + [rs[|rs| - 1].latency]
  }

  /** The last `n` elements of `s` (all of them when there are fewer). */
  function Last<T>(s: seq<T>, n: nat): seq<T> {
    if |s| <= n then s else s[|s| - n..]
  }

  /**
   * Sliding window: starting from empty histories, after any sequence of records each history
   * holds exactly the most recent `Capacity(size)` values, oldest first, the oldest evicted first.
   */
  lemma {:induction false} WindowKeepsLatest(size: int, rs: seq<Record>)
    ensures RecordAll(Empty(size), rs).fps == Last(FpsOf(rs), Capacity(size))
    ensures RecordAll(Empty(size), rs).confidence == Last(ConfidenceOf(rs), Capacity(size))
    ensures RecordAll(Empty(size), rs).latency == Last(LatencyOf(rs), Capacity(size))
  {
    if rs != [] {
      var init := rs[..|rs| - 1];
      var x := rs[|rs| - 1];
      WindowKeepsLatest(size, init);
      assert FpsOf(rs) == FpsOf(init) + [x.fps];
      assert ConfidenceOf(rs) == ConfidenceOf(init) + [x.confidence];
      assert LatencyOf(rs) == LatencyOf(init) + [x.latency];
      LastSnoc(FpsOf(init), x.fps, Capacity(size));
      LastSnoc(ConfidenceOf(init), x.confidence, Capacity(size));
      LastSnoc(LatencyOf(init), x.latency, Capacity(size));
    }
  }

  lemma LastSnoc<T>(s: seq<T>, x: T, n: nat)
    ensures var t := Last(s, n) + [x];
            Last(s + [x], n) == if |t| > n then t[1..] else t
  {
    var t := Last(s, n) + [x];
    if |s| + 1 <= n {
    } else if |s| <= n {
      assert |s| == n;
      assert (s + [x])[|s| + 1 - n..] == t[1..];
    } else {
      assert (s + [x])[|s| + 1 - n..] == t[1..];
    }
  }

  // ---------------------------------------------------------------------------------------
  // Statistics

  datatype Stats = Stats(fpsAvg: real, fpsMin: int, confidenceAvg: real, latencyAvg: real)

  /**
   * `get_stats`: all zeros for an empty window; otherwise the means and the minimum of the
   * histories, with the minimum fps a recorded value that is at most every value and at most
   * the mean.
   */
  function StatsOf(w: Window): (r: Stats)
    requires Bounded(w)
    ensures |w.fps| == 0 ==> r == Stats(0.0, 0, 0.0, 0.0)
    ensures |w.fps| > 0 ==>
              && r.fpsMin in w.fps
              && (forall i :: 0 <= i < |w.fps| ==> r.fpsMin <= w.fps[i])
              && r.fpsMin as real <= r.fpsAvg
  {
    if |w.fps| == 0 then Stats(0.0, 0, 0.0, 0.0)
    else
      MinAtMostMean(w.fps);
      Stats(MeanInt(w.fps), Min(w.fps), Mean(w.confidence), Mean(w.latency))
  }

  class TrackingQualityMonitor {
    const windowSize: int
    var fpsHistory: seq<int>
    var confidenceHistory: seq<real>
    var latencyHistory: seq<real>

    function Value(): Window
      reads this
    {
      Window(windowSize, fpsHistory, confidenceHistory, latencyHistory)
    }

    ghost predicate Valid()
      reads this
    {
      Bounded(Value())
    }

    constructor (windowSize: int)
      ensures Valid() && Value() == Empty(windowSize)
    {
      this.windowSize := windowSize;
      fpsHistory, confidenceHistory, latencyHistory := [], [], [];
    }

    method Record(fps: int, confidence: real, latency: real)
      requires Valid()
      modifies this
      ensures Valid()
      ensures Value() == Recorded(old(Value()), fps, confidence, latency)
    {
      fpsHistory := fpsHistory + [fps];
      confidenceHistory := confidenceHistory + [confidence];
      latencyHistory := latencyHistory + [latency];
      if |fpsHistory| > windowSize {
        fpsHistory := fpsHistory[1..];
        confidenceHistory := confidenceHistory[1..];
        latencyHistory := latencyHistory[1..];
      }
    }

    /** `get_stats`: all zeros for an empty window; otherwise `fps_min` is a recorded rate, the least one, and at most `fps_avg`. */
    function GetStats(): (r: Stats)
      reads this
      requires Valid()
      ensures fpsHistory == [] ==> r == Stats(0.0, 0, 0.0, 0.0)
      ensures fpsHistory != [] ==>
                && r.fpsMin in fpsHistory
                && (forall i :: 0 <= i < |fpsHistory| ==> r.fpsMin <= fpsHistory[i])
                && r.fpsMin as real <= r.fpsAvg
    {
      StatsOf(Value())
    }
  }
}
