/**
 * The affine map from the vision model's normalised image coordinates (origin top-left,
 * y downwards, z away from the camera) into tracker space (centred, y up, z towards the
 * viewer), parameterised by the calibration transform.
 */
module Mapping {
  import opened Vectors

  datatype Transform = Transform(scale: real, offsetX: real, offsetY: real, offsetZ: real)

  function Offsets(t: Transform): Vec3 {
    Vec3(t.offsetX, t.offsetY, t.offsetZ)
  }

  /** `to_vr`: the image centre at depth 0 lands on the offsets. */
  function ToVr(t: Transform, p: Vec3): (r: Vec3)
    ensures p == Vec3(0.5, 0.5, 0.0) ==> r == Offsets(t)
  {
    Vec3((p.x - 0.5) * t.scale + t.offsetX,
         (0.5 - p.y) * t.scale + t.offsetY,
         t.offsetZ - p.z * t.scale)
  }

  /** The inverse of `ToVr` for a non-zero scale: tracker space back to image coordinates. */
  function FromVr(t: Transform, v: Vec3): Vec3
    requires t.scale != 0.0
  {
    Vec3((v.x - t.offsetX) / t.scale + 0.5,
         0.5 - (v.y - t.offsetY) / t.scale,
         (t.offsetZ - v.z) / t.scale)
  }

  /** `FromVr` undoes `ToVr`, so distinct image points map to distinct tracker points. */
  lemma FromVrToVr(t: Transform, p: Vec3)
    requires t.scale != 0.0
    ensures FromVr(t, ToVr(t, p)) == p
  {
    var v := ToVr(t, p);
    var s := t.scale;
    assert v.x - t.offsetX == (p.x - 0.5) * s;
    assert v.y - t.offsetY == (0.5 - p.y) * s;
    assert t.offsetZ - v.z == p.z * s;
    DivCancel(p.x - 0.5, s);
    DivCancel(0.5 - p.y, s);
    DivCancel(p.z, s);
  }

  /** `ToVr` undoes `FromVr`. */
  lemma ToVrFromVr(t: Transform, v: Vec3)
    requires t.scale != 0.0
    ensures ToVr(t, FromVr(t, v)) == v
  {
    var s := t.scale;
    MulCancel(v.x - t.offsetX, s);
    MulCancel(v.y - t.offsetY, s);
    MulCancel(t.offsetZ - v.z, s);
  }

  lemma DivCancel(a: real, s: real)
    requires s != 0.0
    ensures (a * s) / s == a
  {}

  lemma MulCancel(a: real, s: real)
    requires s != 0.0
    ensures (a / s) * s == a
  {}

  /** With zero offsets the mapping is linear in the scale. */
  lemma LinearInScale(s: real, p: Vec3)
    ensures ToVr(Transform(s, 0.0, 0.0, 0.0), p) == Scale(s, ToVr(Transform(1.0, 0.0, 0.0, 0.0), p))
  {}

  /**
   * With a positive scale the map keeps the x order and flips the y and z orders: a point
   * lower in the image is lower in tracker space, a point farther from the camera is farther
   * back.
   */
  lemma AxisOrientation(t: Transform, p: Vec3, q: Vec3)
    requires t.scale > 0.0
    ensures p.x < q.x ==> ToVr(t, p).x < ToVr(t, q).x
    ensures p.y < q.y ==> ToVr(t, p).y > ToVr(t, q).y
    ensures p.z < q.z ==> ToVr(t, p).z > ToVr(t, q).z
  {
    if p.x < q.x {
      WidthKept(t, p, q);
    }
    if p.y < q.y {
      HeightFlips(t, p, q);
    }
    if p.z < q.z {
      DepthFlips(t, p, q);
    }
  }

  lemma WidthKept(t: Transform, p: Vec3, q: Vec3)
    requires t.scale > 0.0 && p.x < q.x
    ensures ToVr(t, p).x < ToVr(t, q).x
  {
    AffineMonotone(p.x - 0.5, q.x - 0.5, t.scale, t.offsetX);
    assert ToVr(t, p).x == (p.x - 0.5) * t.scale + t.offsetX;
  }

  lemma HeightFlips(t: Transform, p: Vec3, q: Vec3)
    requires t.scale > 0.0 && p.y < q.y
    ensures ToVr(t, p).y > ToVr(t, q).y
  {
    AffineMonotone(0.5 - q.y, 0.5 - p.y, t.scale, t.offsetY);
    assert ToVr(t, p).y == (0.5 - p.y) * t.scale + t.offsetY;
  }

  lemma DepthFlips(t: Transform, p: Vec3, q: Vec3)
    requires t.scale > 0.0 && p.z < q.z
    ensures ToVr(t, p).z > ToVr(t, q).z
  {
    AffineMonotone(p.z, q.z, t.scale, 0.0);
    assert ToVr(t, p).z == t.offsetZ - p.z * t.scale;
    assert ToVr(t, q).z == t.offsetZ - q.z * t.scale;
  }

  lemma AffineMonotone(a: real, b: real, s: real, c: real)
    requires s > 0.0 && a < b
    ensures a * s + c < b * s + c
  {
    PosMul(b - a, s);
    assert b * s - a * s == (b - a) * s;
  }

  lemma PosMul(a: real, s: real)
    requires s > 0.0
    ensures a > 0.0 ==> a * s > 0.0
  {}
}
