/**
 * The calibration protocol: after a 3-second warm-up, one sample per frame with landmarks
 * (head y, mean of the two ankle ys) until 5 seconds have passed; then a new scale and
 * vertical offset from the sample means, or no change at all when the result is degenerate.
 */
module Calibration {
  import opened Vectors
  import opened Mapping
  import opened Averages

  const WarmUp: real := 3.0
  const SampleEnd: real := 5.0
  const MinHeight: real := 0.1
  const UserHeight: real := 1.7
  const EyeHeight: real := 1.55

  /**
   * One sample. The source keeps `[[head.x, head.y, head.z], [0, foot_y, 0]]`; only the two
   * y values enter the result, so only they are kept.
   */
  datatype Sample = Sample(headY: real, footY: real)

  /** The sample a frame gives: head landmark y and the mean of the two ankle ys. */
  function SampleOf(headY: real, leftFootY: real, rightFootY: real): Sample {
    Sample(headY, (leftFootY + rightFootY) / 2.0)
  }

  function HeadYs(samples: seq<Sample>): (r: seq<real>)
    ensures |r| == |samples| && forall i :: 0 <= i < |r| ==> r[i] == samples[i].headY
  {
    if samples == [] then [] else [samples[0].headY] + HeadYs(samples[1..])
  }

  function FootYs(samples: seq<Sample>): (r: seq<real>)
    ensures |r| == |samples| && forall i :: 0 <= i < |r| ==> r[i] == samples[i].footY
  {
    if samples == [] then [] else [samples[0].footY] + FootYs(samples[1..])
  }

  /** `h_norm`: mean foot y minus mean head y, the user's height in image units. */
  function HeightNorm(samples: seq<Sample>): real
    requires |samples| > 0
  {
    Mean(FootYs(samples)) - Mean(HeadYs(samples))
  }

  /** The calibration succeeds only with at least one sample and a height above 0.1 image units. */
  predicate Succeeds(samples: seq<Sample>) {
    |samples| > 0 && HeightNorm(samples) > MinHeight
  }

  /**
   * The transform after calibration finishes. On success the scale is `1.7 / h_norm`, which
   * lies strictly between 0 and 17, and the vertical offset is `-(mean_head_y * scale - 1.55)`;
   * otherwise the transform is left exactly as it was. The x and z offsets never change.
   */
  function Calibrate(samples: seq<Sample>, t: Transform): (r: Transform)
    ensures r.offsetX == t.offsetX && r.offsetZ == t.offsetZ
    ensures !Succeeds(samples) ==> r == t
    ensures Succeeds(samples) ==>
              && r.scale == UserHeight / HeightNorm(samples)
              && 0.0 < r.scale < 17.0
              && r.offsetY == -(Mean(HeadYs(samples)) * r.scale - EyeHeight)
  {
    if Succeeds(samples) then
      var h := HeightNorm(samples);
      var scale := UserHeight / h;
      ScaleBounds(h);
      t.(scale := scale, offsetY := -(Mean(HeadYs(samples)) * scale - EyeHeight))
    else t
  }

  lemma ScaleBounds(h: real)
    requires h > MinHeight
    ensures 0.0 < UserHeight / h < 17.0
  {
    assert UserHeight / h < UserHeight / MinHeight by { DivDecreasing(UserHeight, MinHeight, h); }
  }

  lemma DivDecreasing(a: real, b: real, c: real)
    requires a > 0.0 && 0.0 < b < c
    ensures a / c < a / b
  {
    assert a / b - a / c == a * (c - b) / (b * c);
  }

  /**
   * What a successful calibration does to the mapping: the mean ankle height lands exactly
   * 1.7 below the mean head height in tracker space, and the mean head lands at
   * `1.55 + scale * (0.5 - 2 * mean_head_y)`, which is the reference eye height 1.55 only
   * when the mean head y is 0.25.
   */
  lemma CalibratedHeight(samples: seq<Sample>, t: Transform, x: real, z: real)
    requires Succeeds(samples)
    ensures var r := Calibrate(samples, t);
            var head := ToVr(r, Vec3(x, Mean(HeadYs(samples)), z));
            var foot := ToVr(r, Vec3(x, Mean(FootYs(samples)), z));
            && head.y - foot.y == UserHeight
            && head.y == EyeHeight + r.scale * (0.5 - 2.0 * Mean(HeadYs(samples)))
  {
    var r := Calibrate(samples, t);
    var hy, fy := Mean(HeadYs(samples)), Mean(FootYs(samples));
    var s := r.scale;
    assert s == UserHeight / (fy - hy);
    var head := ToVr(r, Vec3(x, hy, z));
    var foot := ToVr(r, Vec3(x, fy, z));
    assert head.y - foot.y == (fy - hy) * s;
    assert (fy - hy) * (UserHeight / (fy - hy)) == UserHeight;
    assert head.y == (0.5 - hy) * s - (hy * s - EyeHeight);
  }

  /**
   * The worked example: every sample with head y 0.2 and foot y 0.9 gives `h_norm = 0.7`,
   * `scale = 17/7 (about 2.428571)` and `offset_y = 149/140 (about 1.064286)`.
   */
  lemma WorkedExample(samples: seq<Sample>, t: Transform)
    requires |samples| > 0 && forall i :: 0 <= i < |samples| ==> samples[i] == Sample(0.2, 0.9)
    ensures HeightNorm(samples) == 0.7
    ensures Calibrate(samples, t) == t.(scale := 17.0 / 7.0, offsetY := 149.0 / 140.0)
  {
    MeanConstant(HeadYs(samples), 0.2);
    MeanConstant(FootYs(samples), 0.9);
  }

  /** A degenerate run (`h_norm = 0.05`) leaves the transform exactly as it was. */
  lemma DegenerateExample(samples: seq<Sample>, t: Transform)
    requires |samples| > 0 && forall i :: 0 <= i < |samples| ==> samples[i] == Sample(0.2, 0.25)
    ensures HeightNorm(samples) == 0.05
    ensures Calibrate(samples, t) == t
  {
    MeanConstant(HeadYs(samples), 0.2);
    MeanConstant(FootYs(samples), 0.25);
  }
}
