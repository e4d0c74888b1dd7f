/** Three-component positions over `real`; the source keeps them in NumPy arrays of float64. */
module Vectors {

  datatype Vec3 = Vec3(x: real, y: real, z: real)

  const Zero := Vec3(0.0, 0.0, 0.0)

  function Add(a: Vec3, b: Vec3): Vec3 {
    Vec3(a.x + b.x, a.y + b.y, a.z + b.z)
  }

  function Sub(a: Vec3, b: Vec3): Vec3 {
    Vec3(a.x - b.x, a.y - b.y, a.z - b.z)
  }

  function Scale(k: real, a: Vec3): Vec3 {
    Vec3(k * a.x, k * a.y, k * a.z)
  }

  /** The component list `[x, y, z]` that `.tolist()` produces. */
  function ToList(a: Vec3): seq<real> {
    [a.x, a.y, a.z]
  }

  /** `v` lies on the closed segment between `a` and `b`. */
  predicate Between(v: real, a: real, b: real) {
    (a <= v <= b) || (b <= v <= a)
  }

  /** Component-wise `Between`. */
  predicate BetweenVec(v: Vec3, a: Vec3, b: Vec3) {
    Between(v.x, a.x, b.x) && Between(v.y, a.y, b.y) && Between(v.z, a.z, b.z)
  }

  /** The blend `p + k * (x - p)` used by both smoothers. */
  function Lerp(p: real, x: real, k: real): real {
    p + k * (x - p)
  }

  /** A blend weight in [0, 1] keeps the blend between its two ends. */
  lemma LerpBetween(p: real, x: real, k: real)
    requires 0.0 <= k <= 1.0
    ensures Between(Lerp(p, x, k), p, x)
  {
    if p <= x {
      assert 0.0 <= k * (x - p) <= x - p by { MulBounds(k, x - p); }
    } else {
      assert p - x >= 0.0;
      assert 0.0 <= k * (p - x) <= p - x by { MulBounds(k, p - x); }
      assert k * (x - p) == -(k * (p - x));
    }
  }

  lemma MulBounds(k: real, d: real)
    requires 0.0 <= k <= 1.0 && d >= 0.0
    ensures 0.0 <= k * d <= d
  {
    assert (1.0 - k) * d >= 0.0;
  }
}
