/** Shared vocabulary: 2-D vectors over the reals, an Option type, min/max,
    squared-distance comparisons, and the transcendental functions the game
    calls (math.exp, math.sin, math.cos), taken as abstract arrows that obey
    the few laws the model relies on. */
module Common {

  datatype Option<T> = None | Some(value: T)

  /** A pygame.Vector2 as a pair of reals. */
  datatype Vec = Vec(x: real, y: real) {
    function Plus(o: Vec): Vec { Vec(x + o.x, y + o.y) }
    function Minus(o: Vec): Vec { Vec(x - o.x, y - o.y) }
    function Scale(k: real): Vec { Vec(x * k, y * k) }
  }

  const Zero := Vec(0.0, 0.0)

  function Min(a: real, b: real): real { if a <= b then a else b }
  function Max(a: real, b: real): real { if a >= b then a else b }

  /** Squared Euclidean distance; the model never takes a square root. */
  function Dist2(a: Vec, b: Vec): real
  {
    (a.x - b.x) * (a.x - b.x) + (a.y - b.y) * (a.y - b.y)
  }

  /** `a.distance_to(b) < reach`, stated without a square root. */
  predicate Within(a: Vec, b: Vec, reach: real)
  {
    0.0 < reach && Dist2(a, b) < reach * reach
  }

  /** For any non-negative d whose square is the squared distance (that is,
      d is the Euclidean distance), `Within` agrees with `d < reach`. */
  lemma WithinIsDistance(a: Vec, b: Vec, reach: real, d: real)
    requires 0.0 <= d && d * d == Dist2(a, b)
    ensures Within(a, b, reach) <==> d < reach
  {
    if d < reach {
      calc {
        Dist2(a, b);
      ==
        d * d;
      <=
        d * reach;
      <
        reach * reach;
      }
    } else if 0.0 < reach {
      calc {
        reach * reach;
      <=
        reach * d;
      <=
        d * d;
      ==
        Dist2(a, b);
      }
    }
  }

  /** math.exp, math.sin, math.cos and pygame's Vector2.distance_to as
      abstract functions. */
  datatype Maths = Maths(exp: real -> real, sin: real -> real, cos: real -> real,
                         distance: (Vec, Vec) -> real)

  /** The laws the model uses: exp(0) = 1, exp maps non-positive arguments
      into (0, 1], sin and cos stay in [-1, 1], and a distance is the
      non-negative number whose square is the squared distance. */
  ghost predicate Lawful(m: Maths)
  {
    && m.exp(0.0) == 1.0
    && (forall x :: x <= 0.0 ==> 0.0 < m.exp(x) <= 1.0)
    && (forall x :: -1.0 <= m.sin(x) <= 1.0)
    && (forall x :: -1.0 <= m.cos(x) <= 1.0)
    && (forall a, b :: 0.0 <= m.distance(a, b) && m.distance(a, b) * m.distance(a, b) == Dist2(a, b))
  }

  /** A lawful distance is the non-negative root of the squared distance. */
  lemma DistanceOf(m: Maths, a: Vec, b: Vec, r: real)
    requires Lawful(m) && 0.0 <= r && r * r == Dist2(a, b)
    ensures m.distance(a, b) == r
  {
    RootUnique(m.distance(a, b), r);
  }

  /** Two non-negative reals with equal squares are equal. */
  lemma RootUnique(s: real, r: real)
    requires 0.0 <= s && 0.0 <= r && s * s == r * r
    ensures s == r
  {
    assert (s - r) * (s + r) == 0.0;
    if s + r == 0.0 {
      assert s == 0.0 && r == 0.0;
    } else {
      calc {
        s - r;
      ==
        (s - r) * (s + r) / (s + r);
      ==
        0.0 / (s + r);
      ==
        0.0;
      }
    }
  }

  /** With lawful arithmetic, `a.distance_to(b) < reach` is the square-free
      test `Within`. */
  lemma DistanceIsWithin(m: Maths, a: Vec, b: Vec, reach: real)
    requires Lawful(m)
    ensures m.distance(a, b) < reach <==> Within(a, b, reach)
  {
    WithinIsDistance(a, b, reach, m.distance(a, b));
  }
}
