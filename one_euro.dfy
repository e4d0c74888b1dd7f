/**
 * The One-Euro filter: a per-channel low-pass filter whose cutoff rises with the smoothed
 * speed, so that fast motion is followed with little lag and still poses are smoothed hard.
 * The three position components are filtered independently, each with its own cutoff.
 */
module OneEuro {
  import opened Wrappers
  import opened Vectors

  /** Any positive constant serves; the properties below do not depend on its value. */
  const Pi: real := 3.141592653589793

  /** The number of channels the tracking engine creates (`range(100)`). */
  const Channels: nat := 100

  datatype Params = Params(minCutoff: real, beta: real, dCutoff: real)

  /** What the engine guarantees of its filters: `min_cutoff >= 0.01`, `beta = 0.01`, `d_cutoff = 1.0`. */
  predicate ValidParams(p: Params) {
    p.minCutoff > 0.0 && p.beta >= 0.0 && p.dCutoff > 0.0
  }

  /** `_alpha`: the exponential smoothing weight for a time step `dt` and a cutoff frequency. */
  function Alpha(dt: real, cutoff: real): (a: real)
    requires dt > 0.0 && cutoff > 0.0
    ensures 0.0 < a < 1.0
  {
    var tau := 1.0 / (2.0 * Pi * cutoff);
    assert tau > 0.0;
    assert tau / dt > 0.0;
    1.0 / (1.0 + tau / dt)
  }

  /** A higher cutoff gives a larger weight on the new sample, that is, less lag. */
  lemma AlphaIncreasing(dt: real, c1: real, c2: real)
    requires dt > 0.0 && 0.0 < c1 < c2
    ensures Alpha(dt, c1) < Alpha(dt, c2)
  {
    var k1 := 2.0 * Pi * c1;
    var k2 := 2.0 * Pi * c2;
    assert 0.0 < k1 < k2;
    var t1 := 1.0 / k1;
    var t2 := 1.0 / k2;
    assert t2 < t1 by { RecipDecreasing(k1, k2); }
    assert t2 / dt < t1 / dt by { DivMonotone(t2, t1, dt); }
    RecipDecreasing(1.0 + t2 / dt, 1.0 + t1 / dt);
  }

  lemma RecipDecreasing(a: real, b: real)
    requires 0.0 < a < b
    ensures 1.0 / b < 1.0 / a
  {
    assert 1.0 / a - 1.0 / b == (b - a) / (a * b);
  }

  lemma DivMonotone(a: real, b: real, d: real)
    requires a < b && d > 0.0
    ensures a / d < b / d
  {
    assert b / d - a / d == (b - a) / d;
  }

  function Abs(r: real): real {
    if r < 0.0 then -r else r
  }

  /** One component's adaptive cutoff, `min_cutoff + beta * |edx|`; never below `min_cutoff`. */
  function Cutoff(p: Params, edx: real): (c: real)
    requires ValidParams(p)
    ensures c >= p.minCutoff > 0.0
  {
    p.minCutoff + p.beta * Abs(edx)
  }

  /** `(x - x_prev) / dt`, component-wise. */
  function Velocity(x: Vec3, xPrev: Vec3, dt: real): Vec3
    requires dt > 0.0
  {
    Vec3((x.x - xPrev.x) / dt, (x.y - xPrev.y) / dt, (x.z - xPrev.z) / dt)
  }

  /** `dx_prev + a_d * (dx - dx_prev)` with the scalar derivative weight `a_d`. */
  function SmoothVelocity(p: Params, dxPrev: Vec3, dx: Vec3, dt: real): Vec3
    requires ValidParams(p) && dt > 0.0
  {
    var ad := Alpha(dt, p.dCutoff);
    Vec3(Lerp(dxPrev.x, dx.x, ad), Lerp(dxPrev.y, dx.y, ad), Lerp(dxPrev.z, dx.z, ad))
  }

  /** `x_prev + a * (x - x_prev)` where each component has the weight of its own cutoff. */
  function SmoothPosition(p: Params, xPrev: Vec3, x: Vec3, edx: Vec3, dt: real): Vec3
    requires ValidParams(p) && dt > 0.0
  {
    Vec3(Lerp(xPrev.x, x.x, Alpha(dt, Cutoff(p, edx.x))),
         Lerp(xPrev.y, x.y, Alpha(dt, Cutoff(p, edx.y))),
         Lerp(xPrev.z, x.z, Alpha(dt, Cutoff(p, edx.z))))
  }

  /** A channel's memory; `Uninit` is the state in which `x_prev`, `dx_prev`, `t_prev` are `None`. */
  datatype ChannelState = Uninit | Init(xPrev: Vec3, dxPrev: Vec3, tPrev: real)

  datatype FilterOut = FilterOut(state: ChannelState, out: Vec3)

  /**
   * One call `filter(t, x)`: the new channel state and the returned position.
   * The first call passes the sample through; a non-positive time step returns the previous
   * output and changes nothing; otherwise the output lies, component by component, between
   * the previous output and the raw sample, and the smoothed velocity between the previous
   * one and the raw velocity.
   */
  function FilterStep(p: Params, s: ChannelState, t: real, x: Vec3): (r: FilterOut)
    requires ValidParams(p)
    ensures s.Uninit? ==> r == FilterOut(Init(x, Zero, t), x)
    ensures s.Init? && t - s.tPrev <= 0.0 ==> r == FilterOut(s, s.xPrev)
    ensures s.Init? && t - s.tPrev > 0.0 ==>
              && r.state.Init? && r.state.tPrev == t && r.out == r.state.xPrev
              && BetweenVec(r.out, s.xPrev, x)
              && BetweenVec(r.state.dxPrev, s.dxPrev, Velocity(x, s.xPrev, t - s.tPrev))
  {
    match s
    case Uninit => FilterOut(Init(x, Zero, t), x)
    case Init(xPrev, dxPrev, tPrev) =>
      var dt := t - tPrev;
      if dt <= 0.0 then FilterOut(s, xPrev)
      else
        var edx := SmoothVelocity(p, dxPrev, Velocity(x, xPrev, dt), dt);
        var ex := SmoothPosition(p, xPrev, x, edx, dt);
        BlendBounds(p, xPrev, x, dxPrev, Velocity(x, xPrev, dt), edx, dt);
        FilterOut(Init(ex, edx, t), ex)
  }

  lemma BlendBounds(p: Params, xPrev: Vec3, x: Vec3, dxPrev: Vec3, dx: Vec3, edx: Vec3, dt: real)
    requires ValidParams(p) && dt > 0.0
    ensures BetweenVec(SmoothVelocity(p, dxPrev, dx, dt), dxPrev, dx)
    ensures BetweenVec(SmoothPosition(p, xPrev, x, edx, dt), xPrev, x)
  {
    var ad := Alpha(dt, p.dCutoff);
    LerpBetween(dxPrev.x, dx.x, ad);
    LerpBetween(dxPrev.y, dx.y, ad);
    LerpBetween(dxPrev.z, dx.z, ad);
    LerpBetween(xPrev.x, x.x, Alpha(dt, Cutoff(p, edx.x)));
    LerpBetween(xPrev.y, x.y, Alpha(dt, Cutoff(p, edx.y)));
    LerpBetween(xPrev.z, x.z, Alpha(dt, Cutoff(p, edx.z)));
  }

  /** A still input stays still: a sample equal to the previous output is returned unchanged. */
  lemma {:induction false} StillInputIsFixed(p: Params, s: ChannelState, t: real)
    requires ValidParams(p) && s.Init?
    ensures FilterStep(p, s, t, s.xPrev).out == s.xPrev
  {
    var dt := t - s.tPrev;
    if dt > 0.0 {
      var edx := SmoothVelocity(p, s.dxPrev, Velocity(s.xPrev, s.xPrev, dt), dt);
      var ex := SmoothPosition(p, s.xPrev, s.xPrev, edx, dt);
      assert ex == s.xPrev;
    }
  }

  /** The filter object of one channel. */
  class OneEuroFilter {
    const minCutoff: real
    const beta: real
    const dCutoff: real
    var xPrev: Option<Vec3>
    var dxPrev: Option<Vec3>
    var tPrev: Option<real>
    var initialized: bool

    function Settings(): Params {
      Params(minCutoff, beta, dCutoff)
    }

    /** `_initialized` holds exactly when the three memories are set. */
    ghost predicate Valid()
      reads this
    {
      && ValidParams(Settings())
      && (initialized ==> xPrev.Some? && dxPrev.Some? && tPrev.Some?)
      && (!initialized ==> xPrev.None? && dxPrev.None? && tPrev.None?)
    }

    ghost function State(): ChannelState
      reads this
      requires Valid()
    {
      if initialized then Init(xPrev.value, dxPrev.value, tPrev.value) else Uninit
    }

    constructor (minCutoff: real, beta: real, dCutoff: real)
      requires ValidParams(Params(minCutoff, beta, dCutoff))
      ensures Valid() && State() == Uninit
      ensures Settings() == Params(minCutoff, beta, dCutoff)
    {
      this.minCutoff := minCutoff;
      this.beta := beta;
      this.dCutoff := dCutoff;
      xPrev, dxPrev, tPrev := None, None, None;
      initialized := false;
    }

    /** `reset`: back to the uninitialised state. */
    method Reset()
      requires Valid()
      modifies this
      ensures Valid() && State() == Uninit
    {
      xPrev, dxPrev, tPrev := None, None, None;
      initialized := false;
    }

    /** `__call__(t, x)`. */
    method Call(t: real, x: Vec3) returns (r: Vec3)
      requires Valid()
      modifies this
      ensures Valid()
      ensures FilterOut(State(), r) == FilterStep(Settings(), old(State()), t, x)
    {
      if !initialized {
        xPrev := Some(x);
        dxPrev := Some(Zero);
        tPrev := Some(t);
        initialized := true;
        return x;
      }
      var dt := t - tPrev.value;
      if dt <= 0.0 {
        return xPrev.value;
      }
      var dx := Velocity(x, xPrev.value, dt);
      var edx := SmoothVelocity(Settings(), dxPrev.value, dx, dt);
      dxPrev := Some(edx);
      var ex := SmoothPosition(Settings(), xPrev.value, x, edx, dt);
      xPrev := Some(ex);
      tPrev := Some(t);
      r := ex;
    }
  }

  /** The engine's dictionary of filters, one per channel id `0 .. Channels - 1`. */
  class FilterBank {
    const params: Params
    const filters: seq<OneEuroFilter>

    ghost predicate Valid()
      reads this, filters
    {
      && |filters| == Channels
      && (forall i, j :: 0 <= i < j < |filters| ==> filters[i] != filters[j])
      && (forall i :: 0 <= i < |filters| ==> filters[i].Valid() && filters[i].Settings() == params)
    }

    /** `{i: OneEuroFilter(min_cutoff=..., beta=...) for i in range(100)}`. */
    constructor (params: Params)
      requires ValidParams(params)
      ensures Valid() && this.params == params
      ensures forall i :: 0 <= i < Channels ==> filters[i].State() == Uninit
    {
      var fs: seq<OneEuroFilter> := [];
      for n := 0 to Channels
        invariant |fs| == n
        invariant forall i, j :: 0 <= i < j < n ==> fs[i] != fs[j]
        invariant forall i :: 0 <= i < n ==> fs[i].Valid() && fs[i].Settings() == params && fs[i].State() == Uninit
      {
        var f := new OneEuroFilter(params.minCutoff, params.beta, params.dCutoff);
        fs := fs + [f];
      }
      this.params := params;
      filters := fs;
    }

    /** `filters[idx](t, pos)`: a key outside the dictionary raises `KeyError`. */
    method Apply(idx: int, t: real, x: Vec3) returns (r: Result<Vec3>)
      requires Valid()
      modifies filters
      ensures Valid()
      ensures !(0 <= idx < Channels) ==> r == Err(KeyError)
      ensures 0 <= idx < Channels ==>
                r.Ok? && FilterOut(filters[idx].State(), r.value) == FilterStep(params, old(filters[idx].State()), t, x)
      ensures forall j :: 0 <= j < Channels && j != idx ==> filters[j].State() == old(filters[j].State())
    {
      if !(0 <= idx < Channels) {
        return Err(KeyError);
      }
      var out := filters[idx].Call(t, x);
      r := Ok(out);
    }

    /** `reset_filters`: every channel returns to the uninitialised state. */
    method ResetAll()
      requires Valid()
      modifies filters
      ensures Valid()
      ensures forall i :: 0 <= i < Channels ==> filters[i].State() == Uninit
    {
      for n := 0 to Channels
        invariant Valid()
        invariant forall i :: 0 <= i < n ==> filters[i].State() == Uninit
      {
        filters[n].Reset();
      }
    }
  }
}
