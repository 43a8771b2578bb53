/**
 * Numeric primitives of fsffb/utils.py over the reals. The transcendental functions the
 * source takes from Python's `math` module are parameters (a `Transcendentals` record);
 * only the handful of facts the proofs use are assumed of them, as a precondition.
 */
module Numeric {

  /** Python's `math.exp`, `math.sqrt`, `math.atan2`, `math.cos`, `math.sin`, `**` and `math.pi`. */
  datatype Transcendentals = Transcendentals(
    exp: real -> real,
    sqrt: real -> real,
    pow: (real, real) -> real,
    atan2: (real, real) -> real,
    cos: real -> real,
    sin: real -> real,
    pi: real)

  /** The facts of the real functions that the model relies on. */
  ghost predicate Facts(t: Transcendentals) {
    && t.exp(0.0) == 1.0
    && t.exp(-ExpoAlpha) < 1.0
    && (forall x :: t.exp(x) > 0.0)
    && t.sqrt(0.0) == 0.0
    && (forall x :: t.sqrt(x) >= 0.0)
    && t.pi > 0.0
  }

  /** The "bendiness" constant of `expocurve`. */
  const ExpoAlpha: real := 5.5

  function Max(a: real, b: real): (r: real)
    ensures r >= a && r >= b && (r == a || r == b)
  {
    if a >= b then a else b
  }

  function Min(a: real, b: real): (r: real)
    ensures r <= a && r <= b && (r == a || r == b)
  {
    if a <= b then a else b
  }

  function Abs(x: real): (r: real)
    ensures r >= 0.0 && (r == x || r == -x)
  {
    if x >= 0.0 then x else -x
  }

  /** Python's `int(x)` on a float: truncation toward zero. */
  function Trunc(x: real): (n: int)
    ensures x >= 0.0 ==> 0 <= n && n as real <= x < n as real + 1.0
    ensures x < 0.0 ==> n <= 0 && n as real - 1.0 < x <= n as real
  {
    if x >= 0.0 then x.Floor else -((-x).Floor)
  }

  /** Python's float `x % m` for `m > 0`: the remainder takes the sign of the divisor. */
  function FloorMod(x: real, m: real): (r: real)
    requires m > 0.0
    ensures 0.0 <= r < m
    ensures (x - r) / m == ((x - r) / m).Floor as real
  {
    var kr := (x / m).Floor as real;
    FloorBounds(x, m);
    var r := x - kr * m;
    assert (x - r) / m == kr by { assert x - r == kr * m; MulDiv(kr, m); }
    r
  }

  lemma FloorBounds(x: real, m: real)
    requires m > 0.0
    ensures (x / m).Floor as real * m <= x < (x / m).Floor as real * m + m
  {
    var q := x / m;
    var kr := q.Floor as real;
    assert kr <= q;
    assert q < kr + 1.0;
    MulLe(kr, q, m);
    DivMul(x, m);
    assert kr * m <= x;
    var s := kr + 1.0;
    MulLt(q, s, m);
    calc {
      x;
    ==
      q * m;
    <
      s * m;
    ==
      kr * m + m;
    }
  }

  // Steps of real arithmetic that the solver does not find by itself inside larger terms.

  lemma MulLe(a: real, b: real, c: real)
    requires a <= b && c >= 0.0
    ensures a * c <= b * c
  {
  }

  lemma MulLt(a: real, b: real, c: real)
    requires a < b && c > 0.0
    ensures a * c < b * c
  {
  }

  /** Products of two positive or of two negative numbers are positive. */
  lemma MulPos(a: real, b: real)
    requires (a > 0.0 && b > 0.0) || (a < 0.0 && b < 0.0)
    ensures a * b > 0.0
  {
  }

  lemma MulPosNeg(a: real, b: real)
    requires a > 0.0 && b < 0.0
    ensures a * b < 0.0
  {
  }

  /** Over a positive divisor, a quotient is below 1 exactly when the dividend is below the divisor. */
  lemma DivBelowOne(a: real, d: real)
    requires d > 0.0
    ensures a / d < 1.0 <==> a < d
  {
  }

  lemma DivMul(x: real, m: real)
    requires m != 0.0
    ensures (x / m) * m == x
  {
  }

  lemma MulDiv(x: real, m: real)
    requires m != 0.0
    ensures (x * m) / m == x
  {
  }

  lemma DivLe(a: real, b: real, d: real)
    requires a <= b && d > 0.0
    ensures a / d <= b / d
  {
  }

  /** `clamp(value, lo, hi)` = `max(lo, min(value, hi))`. */
  function Clamp(v: real, lo: real, hi: real): (r: real)
    ensures lo <= hi ==> lo <= r <= hi
    ensures lo <= v <= hi ==> r == v
    ensures lo > hi ==> r == lo
    ensures v < lo ==> r == lo
    ensures lo <= hi && v > hi ==> r == hi
  {
    Max(lo, Min(v, hi))
  }

  /** `scale(value, (in_min, in_max), (out_min, out_max))`: the affine map of the in-range onto the out-range. */
  function Scale(v: real, inMin: real, inMax: real, outMin: real, outMax: real): (r: real)
    ensures inMax == inMin ==> r == outMin
    ensures inMax != inMin && v == inMin ==> r == outMin
    ensures inMax != inMin && v == inMax ==> r == outMax
    ensures inMin < inMax && outMin <= outMax && inMin <= v <= inMax ==> outMin <= r <= outMax
  {
    if inMax == inMin then outMin
    else
      var t, w, d := v - inMin, outMax - outMin, inMax - inMin;
      assert v == inMax ==> t * w / d == w by {
        if v == inMax { MulDiv(w, d); assert t * w == w * d; }
      }
      assert inMin < inMax && outMin <= outMax && inMin <= v <= inMax ==> 0.0 <= t * w / d <= w by {
        if inMin < inMax && outMin <= outMax && inMin <= v <= inMax {
          ProportionBound(t, d, w);
        }
      }
      t * w / d + outMin
  }

  lemma ProportionBound(t: real, d: real, w: real)
    requires 0.0 <= t <= d && d > 0.0 && w >= 0.0
    ensures 0.0 <= t * w / d <= w
  {
    MulLe(t, d, w);
    MulLe(0.0, t, w);
    DivLe(t * w, d * w, d);
    DivLe(0.0, t * w, d);
    assert d * w == w * d;
    MulDiv(w, d);
  }

  /** `scale_clamp`: `scale`, then `clamp` to the output range. */
  function ScaleClamp(v: real, inMin: real, inMax: real, outMin: real, outMax: real): (r: real)
    ensures outMin <= outMax ==> outMin <= r <= outMax
    ensures outMin > outMax ==> r == outMin
    ensures inMin < inMax && outMin <= outMax && inMin <= v <= inMax ==> r == Scale(v, inMin, inMax, outMin, outMax)
  {
    Clamp(Scale(v, inMin, inMax, outMin, outMax), outMin, outMax)
  }

  /** `mix(a, b, ratio)`: linear interpolation. */
  function Mix(a: real, b: real, ratio: real): (r: real)
    ensures ratio == 0.0 ==> r == a
    ensures ratio == 1.0 ==> r == b
    ensures 0.0 <= ratio <= 1.0 ==> Min(a, b) <= r <= Max(a, b)
  {
    var r := a * (1.0 - ratio) + b * ratio;
    assert 0.0 <= ratio <= 1.0 ==> Min(a, b) <= r <= Max(a, b) by {
      if 0.0 <= ratio <= 1.0 { MixBetween(a, b, ratio); }
    }
    r
  }

  lemma MixBetween(a: real, b: real, ratio: real)
    requires 0.0 <= ratio <= 1.0
    ensures Min(a, b) <= a * (1.0 - ratio) + b * ratio <= Max(a, b)
  {
    var r := a * (1.0 - ratio) + b * ratio;
    var w := b - a;
    assert r == a + ratio * w;
    if a <= b {
      MulLe(0.0, ratio, w);
      MulLe(ratio, 1.0, w);
    } else {
      MixDown(a, b, ratio);
    }
  }

  lemma MixDown(a: real, b: real, ratio: real)
    requires 0.0 <= ratio <= 1.0 && a > b
    ensures b <= a * (1.0 - ratio) + b * ratio <= a
  {
    var w := b - a;
    var u := a - b;
    MulLe(0.0, ratio, u);
    MulLe(ratio, 1.0, u);
    assert ratio * w == -(ratio * u);
    assert a * (1.0 - ratio) + b * ratio == a + ratio * w;
  }

  /**
   * `expocurve(x, k)`: a blend of the identity with an exponential curve (k >= 0 bends up,
   * k < 0 bends down), normalised so that 0 maps to 0 and 1 to 1.
   */
  function Expocurve(t: Transcendentals, x: real, k: real): (r: real)
    requires Facts(t)
  {
    var d := 1.0 - t.exp(-ExpoAlpha);
    if k >= 0.0 then (1.0 - k) * x + k * (1.0 - t.exp(-ExpoAlpha * x)) / d
    else (1.0 + k) * x + (-k) * (t.exp(ExpoAlpha * (x - 1.0)) - t.exp(-ExpoAlpha)) / d
  }

  /** The curve keeps both end points for every bend factor, on both branches. */
  lemma ExpocurveEndpoints(t: Transcendentals, k: real)
    requires Facts(t)
    ensures Expocurve(t, 0.0, k) == 0.0
    ensures Expocurve(t, 1.0, k) == 1.0
  {
    var d := 1.0 - t.exp(-ExpoAlpha);
    assert ExpoAlpha * (0.0 - 1.0) == -ExpoAlpha;
    assert -ExpoAlpha * 1.0 == -ExpoAlpha;
    assert -ExpoAlpha * 0.0 == 0.0;
    assert ExpoAlpha * (1.0 - 1.0) == 0.0;
    assert k * d / d == k;
    assert (-k) * d / d == -k;
  }

  /** `Vector2D.magnitude` and `Vector2D.to_polar`. */
  function Magnitude(t: Transcendentals, x: real, y: real): (m: real)
    requires Facts(t)
    ensures m >= 0.0
    ensures x == 0.0 && y == 0.0 ==> m == 0.0
  {
    t.sqrt(x * x + y * y)
  }

  function ToPolar(t: Transcendentals, x: real, y: real): (p: (real, real))
    requires Facts(t)
    ensures p.0 >= 0.0
    ensures x == 0.0 && y == 0.0 ==> p.0 == 0.0
  {
    (Magnitude(t, x, y), t.atan2(y, x))
  }

  /** `Vector2D.normalize`: the zero vector (magnitude 0) normalises to (0, 0) instead of dividing by 0. */
  function Normalize(t: Transcendentals, x: real, y: real): (v: (real, real))
    requires Facts(t)
    ensures x == 0.0 && y == 0.0 ==> v == (0.0, 0.0)
    ensures Magnitude(t, x, y) != 0.0 ==> v.0 * Magnitude(t, x, y) == x && v.1 * Magnitude(t, x, y) == y
  {
    var m := Magnitude(t, x, y);
    if m == 0.0 then (0.0, 0.0) else (x / m, y / m)
  }

  /**
   * One step of `LowPassFilter.process`: a non-positive time constant passes the input
   * through; otherwise the new value moves from the old one toward the input by
   * `alpha = dt / (tc + dt)`.
   */
  function FilterStep(tc: real, previous: real, input: real, dt: real): (r: real)
    requires tc > 0.0 ==> tc + dt != 0.0
    ensures tc <= 0.0 ==> r == input
    ensures tc > 0.0 && dt == 0.0 ==> r == previous
    ensures tc > 0.0 && dt >= 0.0 ==> Min(previous, input) <= r <= Max(previous, input)
  {
    if tc <= 0.0 then input
    else
      var alpha := dt / (tc + dt);
      assert dt >= 0.0 ==> Min(previous, input) <= alpha * input + (1.0 - alpha) * previous <= Max(previous, input) by {
        if dt >= 0.0 {
          ProportionBound(dt, tc + dt, 1.0);
          assert dt * 1.0 == dt;
          MixBetween(previous, input, alpha);
        }
      }
      alpha * input + (1.0 - alpha) * previous
  }

  /** `LowPassFilter`: a first-order filter whose state is its last output. */
  class LowPassFilter {
    var timeConstant: real
    var filteredValue: real

    constructor (tc: real)
      ensures timeConstant == tc && filteredValue == 0.0
    {
      timeConstant := tc;
      filteredValue := 0.0;
    }

    method Process(input: real, dt: real) returns (out: real)
      requires timeConstant > 0.0 ==> timeConstant + dt != 0.0
      modifies this`filteredValue
      ensures filteredValue == FilterStep(timeConstant, old(filteredValue), input, dt)
      ensures out == filteredValue
    {
      if timeConstant <= 0.0 {
        filteredValue := input;
        return filteredValue;
      }
      var alpha := dt / (timeConstant + dt);
      filteredValue := alpha * input + (1.0 - alpha) * filteredValue;
      out := filteredValue;
    }
  }
}
