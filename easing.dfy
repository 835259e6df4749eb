/** The easing helpers of eternal_loop/src/core/easing.py. */
module Easing {
  import opened Common

  /** Cubic Hermite ease t*t*(3 - 2t). */
  function Smoothstep(t: real): real
  {
    t * t * (3.0 - 2.0 * t)
  }

  lemma SmoothstepEnds()
    ensures Smoothstep(0.0) == 0.0 && Smoothstep(1.0) == 1.0
  {
  }

  /** On [0, 1] the curve stays in [0, 1]. */
  lemma SmoothstepRange(t: real)
    requires 0.0 <= t <= 1.0
    ensures 0.0 <= Smoothstep(t) <= 1.0
  {
    var tt := t * t;
    assert tt >= 0.0;
    var c := 3.0 - 2.0 * t;
    assert c >= 1.0;
    assert Smoothstep(t) == tt * c;
    assert tt * c >= 0.0;
    // 1 - t^2 (3 - 2t) = (1 - t)^2 (1 + 2t)
    var u := (1.0 - t) * (1.0 - t);
    assert u >= 0.0;
    var v := 1.0 + 2.0 * t;
    assert 1.0 - Smoothstep(t) == u * v;
    assert u * v >= 0.0;
  }

  /** On [0, 1] the curve never decreases. */
  lemma SmoothstepMonotone(a: real, b: real)
    requires 0.0 <= a <= b <= 1.0
    ensures Smoothstep(a) <= Smoothstep(b)
  {
    var aa, ab, bb := a * a, a * b, b * b;
    // a^2 <= a, b^2 <= b, ab <= a and ab <= b, from products of factors in [0, 1]
    NonNegProduct(a, 1.0 - a);
    NonNegProduct(b, 1.0 - b);
    NonNegProduct(a, 1.0 - b);
    NonNegProduct(1.0 - a, b);
    var k := 3.0 * (a + b) - 2.0 * (aa + ab + bb);
    assert k >= 0.0;
    SmoothstepDifference(a, b);
    NonNegProduct(b - a, k);
  }

  /** s(b) - s(a) = (b - a) * (3(a + b) - 2(a^2 + ab + b^2)). */
  lemma SmoothstepDifference(a: real, b: real)
    ensures Smoothstep(b) - Smoothstep(a) == (b - a) * (3.0 * (a + b) - 2.0 * (a * a + a * b + b * b))
  {
  }

  lemma NonNegProduct(x: real, y: real)
    requires 0.0 <= x && 0.0 <= y
    ensures 0.0 <= x * y
  {
  }

  /** The curve is point-symmetric about (1/2, 1/2). */
  lemma SmoothstepSymmetric(t: real)
    ensures Smoothstep(1.0 - t) == 1.0 - Smoothstep(t)
  {
  }

  /** Exponential approach of `current` towards `target`:
      current + (target - current) * (1 - exp(-smoothing * dt)). */
  function Damp(m: Maths, current: real, target: real, smoothing: real, dt: real): real
  {
    current + (target - current) * (1.0 - m.exp(-smoothing * dt))
  }

  /** No elapsed time, no movement. */
  lemma DampNoTime(m: Maths, current: real, target: real, smoothing: real)
    requires Lawful(m)
    ensures Damp(m, current, target, smoothing, 0.0) == current
  {
    assert -smoothing * 0.0 == 0.0;
  }

  /** Already at the target, stay there. */
  lemma DampAtTarget(m: Maths, current: real, smoothing: real, dt: real)
    ensures Damp(m, current, current, smoothing, dt) == current
  {
  }

  /** For a non-negative exponent the result lies between current and target
      (inclusive), moves towards the target, and never overshoots it. */
  lemma DampBetween(m: Maths, current: real, target: real, smoothing: real, dt: real)
    requires Lawful(m)
    requires smoothing * dt >= 0.0
    ensures Min(current, target) <= Damp(m, current, target, smoothing, dt) <= Max(current, target)
    ensures (Damp(m, current, target, smoothing, dt) - current) * (target - current) >= 0.0
  {
    var x := -smoothing * dt;
    assert x <= 0.0;
    var e := m.exp(x);
    assert 0.0 < e <= 1.0;
    var k := 1.0 - e;
    assert 0.0 <= k < 1.0;
    var r := Damp(m, current, target, smoothing, dt);
    var g := target - current;
    assert r == current + g * k;
    if g >= 0.0 {
      assert 0.0 <= g * k <= g by { calc { g * k; <= g * 1.0; == g; } }
    } else {
      assert g <= g * k <= 0.0 by { calc { g * k; >= g * 1.0; == g; } }
    }
    assert (r - current) * (target - current) == (target - current) * (target - current) * k;
  }
}
