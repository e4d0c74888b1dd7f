/**
 * The single-file engine of the older release: a dictionary of 50 smoothing channels, each
 * holding its last smoothed position (or nothing yet) and one fixed blend weight `alpha`; the
 * pose branch that smooths and sends head, wrists and waist; and the hand branch that smooths
 * and sends each detected wrist. The mapping into tracker space is `Mapping.ToVr` and the
 * VMT argument list is `Osc.VmtArgs`, the same as in the current engine.
 */
module LegacyEngine {
  import opened Wrappers
  import opened Vectors
  import opened Mapping
  import opened Osc

  /** The filter dictionary has keys 0 .. 49. */
  const Slots: int := 50

  /**
   * One channel's step: the first position is stored as given; later ones move the stored
   * position towards the input by the fraction `alpha` (`pos += (input - pos) * alpha`).
   */
  function Smooth(prev: Option<Vec3>, alpha: real, input: Vec3): (r: Vec3)
    ensures prev.None? ==> r == input
  {
    match prev
    case None => input
    case Some(p) => Vec3(Lerp(p.x, input.x, alpha), Lerp(p.y, input.y, alpha), Lerp(p.z, input.z, alpha))
  }

  /** With a weight in [0, 1] every component of the smoothed position lies between the old position and the input. */
  lemma SmoothBetween(prev: Vec3, alpha: real, input: Vec3)
    requires 0.0 <= alpha <= 1.0
    ensures BetweenVec(Smooth(Some(prev), alpha, input), prev, input)
  {
    LerpBetween(prev.x, input.x, alpha);
    LerpBetween(prev.y, input.y, alpha);
    LerpBetween(prev.z, input.z, alpha);
  }

  /** Weight 1 follows the input exactly, weight 0 never moves, and an input equal to the stored position is kept. */
  lemma SmoothEndpoints(prev: Vec3, input: Vec3, alpha: real)
    ensures Smooth(Some(prev), 1.0, input) == input
    ensures Smooth(Some(prev), 0.0, input) == prev
    ensures Smooth(Some(prev), alpha, prev) == prev
  {}

  /** `send_vmt(idx, pos)` with its default quaternion `[0, 0, 0, 1]`; the client always exists here. */
  function LegacyVmt(idx: int, pos: Vec3): Datagram {
    Datagram(VmtAddress, VmtArgs(idx, pos, Identity))
  }

  /** A receiver reads the legacy datagram back as tracker `idx`, enabled, at `pos`, with no rotation. */
  lemma LegacyVmtReadBack(idx: int, pos: Vec3)
    ensures DecodeVmt(LegacyVmt(idx, pos).args) == Some(VmtMessage(idx, 1, 0.0, pos, Identity))
  {
    VmtRoundTrip(idx, pos, Identity);
  }

  /** Both releases put the same datagram on the wire for a tracker with no rotation. */
  lemma SameWireFormat(idx: int, pos: Vec3)
    ensures VmtSend(true, idx, pos, None) == [LegacyVmt(idx, pos)]
  {
    assert RotationOrIdentity(None) == Identity;
  }

  // ---------------------------------------------------------------------------------------
  // What one frame does: a list of jobs, each smoothing one channel and sending the result.

  /** Smooth image point `point` (mapped to tracker space) in `channel`, send it as tracker `tracker`. */
  datatype Job = Job(channel: int, tracker: int, point: Vec3)

  /** The filter dictionary's positions and the datagrams sent so far. */
  datatype Frame = Frame(slots: seq<Option<Vec3>>, sent: seq<Datagram>)

  predicate InRange(jobs: seq<Job>) {
    forall i :: 0 <= i < |jobs| ==> 0 <= jobs[i].channel < Slots
  }

  /** One job on a frame. */
  function Perform1(f: Frame, alpha: real, t: Transform, j: Job): (r: Frame)
    requires 0 <= j.channel < |f.slots|
    ensures |r.slots| == |f.slots|
  {
    var p := Smooth(f.slots[j.channel], alpha, ToVr(t, j.point));
    Frame(f.slots[j.channel := Some(p)], f.sent + [LegacyVmt(j.tracker, p)])
  }

  /** The jobs in order. */
  function Perform(f: Frame, alpha: real, t: Transform, jobs: seq<Job>): (r: Frame)
    requires |f.slots| == Slots && InRange(jobs)
    ensures |r.slots| == Slots
    decreases |jobs|
  {
    if jobs == [] then f
    else Perform1(Perform(f, alpha, t, jobs[..|jobs| - 1]), alpha, t, jobs[|jobs| - 1])
  }

  lemma PerformSnoc(f: Frame, alpha: real, t: Transform, jobs: seq<Job>, j: Job)
    requires |f.slots| == Slots && InRange(jobs) && 0 <= j.channel < Slots
    ensures InRange(jobs + [j])
    ensures Perform(f, alpha, t, jobs + [j]) == Perform1(Perform(f, alpha, t, jobs), alpha, t, j)
  {
    assert (jobs + [j])[..|jobs|] == jobs;
  }

  /** Performing two job lists one after the other is performing their concatenation. */
  lemma {:induction false} PerformAppend(f: Frame, alpha: real, t: Transform, a: seq<Job>, b: seq<Job>)
    requires |f.slots| == Slots && InRange(a) && InRange(b)
    ensures InRange(a + b)
    ensures Perform(f, alpha, t, a + b) == Perform(Perform(f, alpha, t, a), alpha, t, b)
    decreases |b|
  {
    if b == [] {
      assert a + b == a;
    } else {
      var init := b[..|b| - 1];
      PerformAppend(f, alpha, t, a, init);
      assert (a + b)[..|a + b| - 1] == a + init;
    }
  }

  /** The tracker index field of a VMT datagram: its first argument. */
  function TrackerOf(d: Datagram): Option<int> {
    if |d.args| > 0 && d.args[0].Int? then Some(d.args[0].i) else None
  }

  lemma LegacyVmtTracker(idx: int, pos: Vec3)
    ensures TrackerOf(LegacyVmt(idx, pos)) == Some(idx)
  {
    assert VmtArgs(idx, pos, Identity)[0] == Int(idx);
  }

  /**
   * Performing jobs sends one VMT datagram per job, in job order, after everything sent
   * before, each carrying the job's tracker index.
   */
  lemma {:induction false} PerformSends(f: Frame, alpha: real, t: Transform, jobs: seq<Job>)
    requires |f.slots| == Slots && InRange(jobs)
    ensures var r := Perform(f, alpha, t, jobs);
            && |r.sent| == |f.sent| + |jobs|
            && r.sent[..|f.sent|] == f.sent
            && var added := r.sent[|f.sent|..];
               forall i :: 0 <= i < |jobs| ==>
                 added[i].address == VmtAddress && TrackerOf(added[i]) == Some(jobs[i].tracker)
  {
    if jobs != [] {
      var init := jobs[..|jobs| - 1];
      PerformSends(f, alpha, t, init);
      var g := Perform(f, alpha, t, init);
      var r := Perform(f, alpha, t, jobs);
      var j := jobs[|jobs| - 1];
      var p := Smooth(g.slots[j.channel], alpha, ToVr(t, j.point));
      var d := LegacyVmt(j.tracker, p);
      assert r.sent == g.sent + [d];
      LegacyVmtTracker(j.tracker, p);
      var added, before := r.sent[|f.sent|..], g.sent[|f.sent|..];
      assert added == before + [d];
      forall i | 0 <= i < |jobs|
        ensures added[i].address == VmtAddress && TrackerOf(added[i]) == Some(jobs[i].tracker)
      {
        if i < |init| {
          assert added[i] == before[i];
          assert jobs[i] == init[i];
        }
      }
      assert r.sent[..|f.sent|] == g.sent[..|f.sent|];
    }
  }

  /** Performing jobs leaves every channel that no job names as it was. */
  lemma {:induction false} PerformKeeps(f: Frame, alpha: real, t: Transform, jobs: seq<Job>, c: int)
    requires |f.slots| == Slots && InRange(jobs) && 0 <= c < Slots
    requires forall i :: 0 <= i < |jobs| ==> jobs[i].channel != c
    ensures Perform(f, alpha, t, jobs).slots[c] == f.slots[c]
  {
    if jobs != [] {
      var init := jobs[..|jobs| - 1];
      assert jobs[|jobs| - 1].channel != c;
      forall i | 0 <= i < |init| ensures init[i].channel != c {
        assert init[i] == jobs[i];
      }
      PerformKeeps(f, alpha, t, init, c);
    }
  }

  // ---------------------------------------------------------------------------------------
  // The two branches of the frame loop.

  /** The five pose landmarks the old engine reads: 0 (nose), 15 and 16 (wrists), 23 and 24 (hips). */
  datatype PoseLandmarks = PoseLandmarks(nose: Vec3, leftWrist: Vec3, rightWrist: Vec3, leftHip: Vec3, rightHip: Vec3)

  /** The `trackers` settings group and `use_fingers`. */
  datatype TrackerSettings = TrackerSettings(
    enableHead: bool, enableHands: bool, enableWaist: bool, useFingers: bool,
    headIndex: int, leftHandIndex: int, rightHandIndex: int, waistIndex: int)

  /** The waist point: the midpoint of the two hips. */
  function Mid(a: Vec3, b: Vec3): (m: Vec3)
    ensures BetweenVec(m, a, b)
  {
    Vec3((a.x + b.x) / 2.0, (a.y + b.y) / 2.0, (a.z + b.z) / 2.0)
  }

  function HeadJobs(lm: PoseLandmarks, cfg: TrackerSettings): seq<Job> {
    if cfg.enableHead then [Job(0, cfg.headIndex, lm.nose)] else []
  }

  function WristJobs(lm: PoseLandmarks, cfg: TrackerSettings): seq<Job> {
    if cfg.enableHands && !cfg.useFingers
    then [Job(1, cfg.leftHandIndex, lm.leftWrist), Job(2, cfg.rightHandIndex, lm.rightWrist)] else []
  }

  function WaistJobs(lm: PoseLandmarks, cfg: TrackerSettings): seq<Job> {
    if cfg.enableWaist then [Job(3, cfg.waistIndex, Mid(lm.leftHip, lm.rightHip))] else []
  }

  /** The pose branch: head on channel 0, the wrists on 1 and 2 unless fingers are tracked, the waist on 3. */
  function PoseJobs(lm: PoseLandmarks, cfg: TrackerSettings): (jobs: seq<Job>)
    ensures InRange(jobs)
    ensures forall i :: 0 <= i < |jobs| ==> 0 <= jobs[i].channel <= 3
  {
    HeadJobs(lm, cfg) + WristJobs(lm, cfg) + WaistJobs(lm, cfg)
  }

  /** One detected hand: the handedness label and wrist landmark 0. */
  datatype Hand = Hand(side: string, wrist: Vec3)

  /** The hand branch's dictionary key: 1 for "Left", 2 otherwise, plus 10. */
  function HandChannel(side: string): (c: int)
    ensures c == 11 <==> side == "Left"
    ensures c == 11 || c == 12
  {
    (if side == "Left" then 1 else 2) + 10
  }

  /** A left hand goes to the left-hand tracker, any other label to the right-hand tracker. */
  function HandJob(h: Hand, cfg: TrackerSettings): Job {
    Job(HandChannel(h.side), if h.side == "Left" then cfg.leftHandIndex else cfg.rightHandIndex, h.wrist)
  }

  function HandJobs(hands: seq<Hand>, cfg: TrackerSettings): (jobs: seq<Job>)
    ensures |jobs| == |hands| && InRange(jobs)
    ensures forall i :: 0 <= i < |jobs| ==> jobs[i] == HandJob(hands[i], cfg)
  {
    seq(|hands|, i requires 0 <= i < |hands| => HandJob(hands[i], cfg))
  }

  /**
   * The two branches never share a channel: smoothing the detected hands leaves the pose
   * channels 0 .. 3 as they were, and the pose branch leaves the hand channels 11 and 12.
   */
  lemma BranchesIndependent(f: Frame, alpha: real, t: Transform, lm: PoseLandmarks, hands: seq<Hand>, cfg: TrackerSettings)
    requires |f.slots| == Slots
    ensures forall c :: 0 <= c <= 3 ==> Perform(f, alpha, t, HandJobs(hands, cfg)).slots[c] == f.slots[c]
    ensures forall c :: 11 <= c <= 12 ==> Perform(f, alpha, t, PoseJobs(lm, cfg)).slots[c] == f.slots[c]
  {
    forall c | 0 <= c <= 3 ensures Perform(f, alpha, t, HandJobs(hands, cfg)).slots[c] == f.slots[c] {
      PerformKeeps(f, alpha, t, HandJobs(hands, cfg), c);
    }
    forall c | 11 <= c <= 12 ensures Perform(f, alpha, t, PoseJobs(lm, cfg)).slots[c] == f.slots[c] {
      PerformKeeps(f, alpha, t, PoseJobs(lm, cfg), c);
    }
  }

  /** On a channel never smoothed before, the hand branch stores and sends the mapped wrist itself. */
  lemma FirstHandIsRaw(f: Frame, alpha: real, t: Transform, h: Hand, cfg: TrackerSettings)
    requires |f.slots| == Slots && f.slots[HandChannel(h.side)] == None
    ensures var r := Perform(f, alpha, t, HandJobs([h], cfg));
            && r.slots[HandChannel(h.side)] == Some(ToVr(t, h.wrist))
            && r.sent == f.sent + [LegacyVmt(HandJob(h, cfg).tracker, ToVr(t, h.wrist))]
  {
    var jobs := HandJobs([h], cfg);
    assert jobs[..0] == [];
    assert jobs == [HandJob(h, cfg)];
  }

  /** The pose branch in its three phases performs the whole pose job list. */
  lemma PerformPose(f0: Frame, f1: Frame, f2: Frame, f3: Frame, alpha: real, t: Transform,
                    lm: PoseLandmarks, cfg: TrackerSettings)
    requires |f0.slots| == Slots
    requires f1 == Perform(f0, alpha, t, HeadJobs(lm, cfg))
    requires f2 == Perform(f1, alpha, t, WristJobs(lm, cfg))
    requires f3 == Perform(f2, alpha, t, WaistJobs(lm, cfg))
    ensures f3 == Perform(f0, alpha, t, PoseJobs(lm, cfg))
  {
    PerformAppend(f0, alpha, t, HeadJobs(lm, cfg), WristJobs(lm, cfg));
    PerformAppend(f0, alpha, t, HeadJobs(lm, cfg) + WristJobs(lm, cfg), WaistJobs(lm, cfg));
  }

  // ---------------------------------------------------------------------------------------
  // The engine object.

  class LegacyTracker {
    const alpha: real
    /** The filter dictionary, key `i` at index `i`: `None` until the channel's first position. */
    const filters: array<Option<Vec3>>
    var scale: real
    var offsetX: real
    var offsetY: real
    var offsetZ: real
    var outbox: seq<Datagram>

    predicate Valid()
      reads this
    {
      filters.Length == Slots
    }

    function Current(): Transform
      reads this
    {
      Transform(scale, offsetX, offsetY, offsetZ)
    }

    ghost function Snapshot(): Frame
      reads this, filters
    {
      Frame(filters[..], outbox)
    }

    /** `__init__`: the transform from the settings and 50 empty channels sharing one `alpha`. */
    constructor (t: Transform, alpha: real)
      ensures Valid() && Current() == t && this.alpha == alpha && outbox == []
      ensures forall i :: 0 <= i < Slots ==> filters[i] == None
    {
      this.alpha := alpha;
      scale, offsetX, offsetY, offsetZ := t.scale, t.offsetX, t.offsetY, t.offsetZ;
      filters := new Option<Vec3>[Slots](_ => None);
      outbox := [];
    }

    /**
     * `apply_filter`: a key outside the dictionary raises `KeyError`; otherwise the channel's
     * smoothed position is stored and returned and no other channel changes.
     */
    method ApplyFilter(idx: int, pos: Vec3) returns (r: Result<Vec3>)
      requires Valid()
      modifies filters
      ensures !(0 <= idx < Slots) ==> r == Err(KeyError) && filters[..] == old(filters[..])
      ensures 0 <= idx < Slots ==>
                && r == Ok(Smooth(old(filters[idx]), alpha, pos))
                && filters[..] == old(filters[..])[idx := Some(r.value)]
    {
      if !(0 <= idx < filters.Length) {
        return Err(KeyError);
      }
      var p := Smooth(filters[idx], alpha, pos);
      filters[idx] := Some(p);
      r := Ok(p);
    }

    /** `send_vmt`: one datagram for tracker `idx`. */
    method SendVmt(idx: int, pos: Vec3)
      modifies this
      ensures outbox == old(outbox) + [LegacyVmt(idx, pos)]
      ensures Current() == old(Current())
    {
      outbox := outbox + [LegacyVmt(idx, pos)];
    }

    /** One joint: smooth the mapped point in `j.channel` and send it as tracker `j.tracker`. */
    method Track(j: Job)
      requires Valid() && 0 <= j.channel < Slots
      modifies this, filters
      ensures Valid() && Current() == old(Current())
      ensures Snapshot() == Perform1(old(Snapshot()), alpha, Current(), j)
    {
      var r := ApplyFilter(j.channel, ToVr(Current(), j.point));
      SendVmt(j.tracker, r.value);
    }

    /**
     * The pose branch for one frame with landmarks: head, both wrists and the waist, each as
     * the settings enable.
     */
    method TrackPose(lm: PoseLandmarks, cfg: TrackerSettings)
      requires Valid()
      modifies this, filters
      ensures Valid() && Current() == old(Current())
      ensures Snapshot() == Perform(old(Snapshot()), alpha, Current(), PoseJobs(lm, cfg))
    {
      ghost var f0 := Snapshot();
      TrackHead(lm, cfg);
      ghost var f1 := Snapshot();
      TrackWrists(lm, cfg);
      ghost var f2 := Snapshot();
      TrackWaist(lm, cfg);
      PerformPose(f0, f1, f2, Snapshot(), alpha, Current(), lm, cfg);
    }

    method TrackHead(lm: PoseLandmarks, cfg: TrackerSettings)
      requires Valid()
      modifies this, filters
      ensures Valid() && Current() == old(Current())
      ensures Snapshot() == Perform(old(Snapshot()), alpha, Current(), HeadJobs(lm, cfg))
    {
      if cfg.enableHead {
        var j := Job(0, cfg.headIndex, lm.nose);
        ghost var f := Snapshot();
        Track(j);
        PerformSnoc(f, alpha, Current(), [], j);
      }
    }

    /** The two wrists: both channels smoothed first, then both sent. */
    method TrackWrists(lm: PoseLandmarks, cfg: TrackerSettings)
      requires Valid()
      modifies this, filters
      ensures Valid() && Current() == old(Current())
      ensures Snapshot() == Perform(old(Snapshot()), alpha, Current(), WristJobs(lm, cfg))
    {
      if cfg.enableHands && !cfg.useFingers {
        ghost var f := Snapshot();
        var t := Current();
        var pl := ApplyFilter(1, ToVr(t, lm.leftWrist));
        var pr := ApplyFilter(2, ToVr(t, lm.rightWrist));
        SendVmt(cfg.leftHandIndex, pl.value);
        SendVmt(cfg.rightHandIndex, pr.value);
        var jl, jr := Job(1, cfg.leftHandIndex, lm.leftWrist), Job(2, cfg.rightHandIndex, lm.rightWrist);
        assert Snapshot() == Perform1(Perform1(f, alpha, t, jl), alpha, t, jr);
        PerformSnoc(f, alpha, t, [], jl);
        PerformSnoc(f, alpha, t, [jl], jr);
        assert [jl] + [jr] == WristJobs(lm, cfg);
      }
    }

    method TrackWaist(lm: PoseLandmarks, cfg: TrackerSettings)
      requires Valid()
      modifies this, filters
      ensures Valid() && Current() == old(Current())
      ensures Snapshot() == Perform(old(Snapshot()), alpha, Current(), WaistJobs(lm, cfg))
    {
      if cfg.enableWaist {
        var j := Job(3, cfg.waistIndex, Mid(lm.leftHip, lm.rightHip));
        ghost var f := Snapshot();
        Track(j);
        PerformSnoc(f, alpha, Current(), [], j);
      }
    }

    /** The hand branch: each detected hand in detection order, its wrist smoothed and sent. */
    method TrackHands(hands: seq<Hand>, cfg: TrackerSettings)
      requires Valid()
      modifies this, filters
      ensures Valid() && Current() == old(Current())
      ensures Snapshot() == Perform(old(Snapshot()), alpha, Current(), HandJobs(hands, cfg))
    {
      ghost var f0 := Snapshot();
      var t := Current();
      for i := 0 to |hands|
        invariant Valid() && Current() == t
        invariant Snapshot() == Perform(f0, alpha, t, HandJobs(hands[..i], cfg))
      {
        var h := hands[i];
        var idx := if h.side == "Left" then 1 else 2;
        var vmtIdx := if h.side == "Left" then cfg.leftHandIndex else cfg.rightHandIndex;
        var p := ApplyFilter(idx + 10, ToVr(t, h.wrist));
        SendVmt(vmtIdx, p.value);
        assert HandJobs(hands[..i + 1], cfg) == HandJobs(hands[..i], cfg) + [HandJob(h, cfg)];
        PerformSnoc(f0, alpha, t, HandJobs(hands[..i], cfg), HandJob(h, cfg));
      }
      assert hands[..|hands|] == hands;
    }
  }
}
