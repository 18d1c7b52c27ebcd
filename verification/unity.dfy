/** The parts of Unity's Mathf, Vector2 and Vector3 that the player scripts rely on,
    over exact reals.  Each definition follows Unity's own: Lerp clamps its parameter,
    InverseLerp answers 0 for an empty range, vector equality is approximate and
    normalisation yields the zero vector for very short vectors. */
module Unity {

  datatype Option<T> = None | Some(value: T)

  /** Unity's kEpsilon, used by Vector2/Vector3 equality and by normalisation. */
  const VectorEpsilon: real := 0.00001

  /** Mathf.Epsilon, the smallest positive float. */
  const FloatEpsilon: real := 1.401298e-45

  /** x lies on the closed segment between a and b, in either order. */
  predicate Between(x: real, a: real, b: real)
  {
    (a <= x <= b) || (b <= x <= a)
  }

  function Min(a: real, b: real): real { if a <= b then a else b }

  function Max(a: real, b: real): real { if a <= b then b else a }

  /** AnimationCurve.Evaluate: the curve's value at the given time. */
  function Evaluate(curve: real -> real, time: real): real
  {
    curve(time)
  }

  /** Mathf.Clamp01 */
  function Clamp01(t: real): (r: real)
    ensures 0.0 <= r <= 1.0
    ensures 0.0 <= t <= 1.0 ==> r == t
  {
    if t < 0.0 then 0.0 else if t > 1.0 then 1.0 else t
  }

  /** Mathf.Clamp: the lower bound is tested first. */
  function Clamp(value: real, min: real, max: real): (r: real)
    ensures min <= max ==> min <= r <= max
    ensures min <= value <= max ==> r == value
  {
    if value < min then min else if value > max then max else value
  }

  /** Mathf.Lerp: the parameter is clamped to [0, 1]. */
  function Lerp(a: real, b: real, t: real): real
  {
    a + (b - a) * Clamp01(t)
  }

  /** Because the parameter is clamped, Lerp never leaves the segment between its two
      ends, and it answers a at or below 0 and b at or above 1. */
  lemma LerpBounds(a: real, b: real, t: real)
    ensures Between(Lerp(a, b, t), a, b)
    ensures t <= 0.0 ==> Lerp(a, b, t) == a
    ensures t >= 1.0 ==> Lerp(a, b, t) == b
  {
    LerpStaysBetween(a, b, Clamp01(t));
  }

  lemma LerpStaysBetween(a: real, b: real, c: real)
    requires 0.0 <= c <= 1.0
    ensures Between(a + (b - a) * c, a, b)
  {
    var d := b - a;
    ProductBetween(d, c);
    ShiftBetween(d * c, a, d);
  }

  lemma ShiftBetween(x: real, a: real, d: real)
    requires Between(x, 0.0, d)
    ensures Between(a + x, a, a + d)
  {
  }

  /** d * c lies between 0 and d for c in [0, 1], whatever the sign of d. */
  lemma ProductBetween(d: real, c: real)
    requires 0.0 <= c <= 1.0
    ensures Between(d * c, 0.0, d)
  {
    if 0.0 <= d {
      ProductBounds(d, c);
    } else {
      NegativeProductBounds(d, c);
    }
  }

  /** 0 <= d * c <= d for d >= 0 and c in [0, 1]. */
  lemma ProductBounds(d: real, c: real)
    requires 0.0 <= d && 0.0 <= c <= 1.0
    ensures 0.0 <= d * c <= d
  {
    MulMono(0.0, d, c);
    MulMono(c, 1.0, d);
  }

  lemma NegativeProductBounds(d: real, c: real)
    requires d < 0.0 && 0.0 <= c <= 1.0
    ensures d <= d * c <= 0.0
  {
    MulMono(d, 0.0, c);
    MulMono(d, 0.0, 1.0 - c);
  }

  /** Multiplying both sides of an inequality by a non-negative factor keeps it. */
  lemma MulMono(x: real, y: real, z: real)
    requires x <= y && 0.0 <= z
    ensures x * z <= y * z
  {
    var w := (y - x) * z;
    assert 0.0 <= w;
    assert y * z - x * z == w;
  }

  /** Mathf.InverseLerp: where v sits between a and b, clamped to [0, 1]; 0 when a == b. */
  function InverseLerp(a: real, b: real, v: real): (r: real)
    ensures 0.0 <= r <= 1.0
  {
    if a != b then Clamp01((v - a) / (b - a)) else 0.0
  }

  /** Lerp undoes InverseLerp on the segment between two distinct ends. */
  lemma LerpInverseLerp(a: real, b: real, v: real)
    requires a != b && Between(v, a, b)
    ensures Lerp(a, b, InverseLerp(a, b, v)) == v
  {
    var q := (v - a) / (b - a);
    assert q * (b - a) == v - a;
    if a < b {
      assert 0.0 <= v - a <= b - a;
      DivBounds(v - a, b - a);
    } else {
      assert 0.0 <= a - v <= a - b;
      assert q == (a - v) / (a - b);
      DivBounds(a - v, a - b);
    }
  }

  lemma DivBounds(x: real, y: real)
    requires 0.0 <= x <= y && 0.0 < y
    ensures 0.0 <= x / y <= 1.0
  {
    assert x / y * y == x;
  }

  datatype Vec2 = Vec2(x: real, y: real)

  datatype Vec3 = Vec3(x: real, y: real, z: real)

  const Zero2: Vec2 := Vec2(0.0, 0.0)

  const Zero3: Vec3 := Vec3(0.0, 0.0, 0.0)

  function Add3(a: Vec3, b: Vec3): Vec3 { Vec3(a.x + b.x, a.y + b.y, a.z + b.z) }

  function Sub3(a: Vec3, b: Vec3): Vec3 { Vec3(a.x - b.x, a.y - b.y, a.z - b.z) }

  function Scale3(v: Vec3, k: real): Vec3 { Vec3(v.x * k, v.y * k, v.z * k) }

  function Dot3(a: Vec3, b: Vec3): real { a.x * b.x + a.y * b.y + a.z * b.z }

  function SqrMagnitude2(v: Vec2): real { v.x * v.x + v.y * v.y }

  function SqrMagnitude3(v: Vec3): real { Dot3(v, v) }

  /** Vector2.Lerp and Vector3.Lerp: Mathf.Lerp applied to every component. */
  function Lerp2(a: Vec2, b: Vec2, t: real): Vec2
  {
    Vec2(Lerp(a.x, b.x, t), Lerp(a.y, b.y, t))
  }

  function Lerp3(a: Vec3, b: Vec3, t: real): Vec3
  {
    Vec3(Lerp(a.x, b.x, t), Lerp(a.y, b.y, t), Lerp(a.z, b.z, t))
  }

  /** Vector2 `==`: the squared length of the difference is below kEpsilon squared. */
  predicate ApproxEqual2(a: Vec2, b: Vec2)
  {
    SqrMagnitude2(Vec2(a.x - b.x, a.y - b.y)) < VectorEpsilon * VectorEpsilon
  }

  /** Vector2.normalized, given the vector's magnitude m (a square root, which the
      engine computes): v / m, or the zero vector when m is at most kEpsilon. */
  function Normalize2(v: Vec2, m: real): (r: Vec2)
    requires 0.0 <= m && m * m == SqrMagnitude2(v)
    ensures m <= VectorEpsilon ==> r == Zero2
    ensures m > VectorEpsilon ==> SqrMagnitude2(r) == 1.0 && r.x * m == v.x && r.y * m == v.y
  {
    if m > VectorEpsilon then
      var r := Vec2(v.x / m, v.y / m);
      assert SqrMagnitude2(r) * (m * m) == SqrMagnitude2(v);
      r
    else Zero2
  }

  /** Vector3.ProjectOnPlane: removes the normal's share of v, unless the normal is
      shorter than the smallest float. */
  function ProjectOnPlane(v: Vec3, n: Vec3): (r: Vec3)
    ensures SqrMagnitude3(n) >= FloatEpsilon ==> Dot3(r, n) == 0.0
    ensures SqrMagnitude3(n) < FloatEpsilon ==> r == v
  {
    var s := Dot3(n, n);
    if s < FloatEpsilon then v
    else
      var k := Dot3(v, n) / s;
      var r := Sub3(v, Scale3(n, k));
      assert Dot3(r, n) == Dot3(v, n) - k * s;
      assert k * s == Dot3(v, n);
      r
  }

  /** The test Dot(forward, d.normalized) >= threshold, written without a square root:
      d.normalized is the zero vector (dot 0) when |d|^2 <= kEpsilon^2, and otherwise
      the test compares p = Dot(forward, d) with threshold * |d| through squares. */
  predicate NormalizedDotAtLeast(forward: Vec3, d: Vec3, threshold: real)
  {
    var s := SqrMagnitude3(d);
    if s <= VectorEpsilon * VectorEpsilon then 0.0 >= threshold
    else
      var p := Dot3(forward, d);
      if threshold <= 0.0 then p >= 0.0 || p * p <= threshold * threshold * s
      else p >= 0.0 && p * p >= threshold * threshold * s
  }

  /** The square-free test agrees with the textbook one for the true magnitude m of d. */
  lemma NormalizedDotAtLeastMeansDot(forward: Vec3, d: Vec3, threshold: real, m: real)
    requires 0.0 <= m && m * m == SqrMagnitude3(d)
    ensures m <= VectorEpsilon ==> (NormalizedDotAtLeast(forward, d, threshold) <==> 0.0 >= threshold)
    ensures m > VectorEpsilon ==>
      (NormalizedDotAtLeast(forward, d, threshold) <==> Dot3(forward, d) / m >= threshold)
  {
    var s := SqrMagnitude3(d);
    SquareOrder(m, VectorEpsilon);
    if m > VectorEpsilon {
      var p := Dot3(forward, d);
      assert p / m * m == p;
      assert p / m >= threshold <==> p >= threshold * m;
      var tm := threshold * m;
      assert tm * tm == threshold * threshold * s;
      if threshold <= 0.0 {
        if p < 0.0 {
          SquareOrder(-p, -tm);
        }
      } else if p >= 0.0 {
        SquareOrder(tm, p);
      }
    }
  }

  /** For non-negative reals, squaring preserves and reflects order. */
  lemma SquareOrder(a: real, b: real)
    requires 0.0 <= a && 0.0 <= b
    ensures a <= b <==> a * a <= b * b
  {
    if a <= b {
      MulMono(a, b, a);
      MulMono(a, b, b);
    } else {
      SquareStrict(b, a);
    }
  }

  lemma SquareStrict(a: real, b: real)
    requires 0.0 <= a < b
    ensures a * a < b * b
  {
    StrictMulMono(0.0, b - a, b + a);
    assert (b - a) * (b + a) == b * b - a * a;
  }

  /** Multiplying both sides of a strict inequality by a positive factor keeps it. */
  lemma StrictMulMono(x: real, y: real, z: real)
    requires x < y && 0.0 < z
    ensures x * z < y * z
  {
    var w := (y - x) * z;
    assert 0.0 < w;
    assert y * z - x * z == w;
  }
}
