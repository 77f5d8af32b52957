/** Plane vectors and the scalar helpers the game's arithmetic relies on:
    Python's `int()` truncation and its floor-based `%` on 360. */
module Vectors {

  /** A pygame `Vector2` read as a value: two real coordinates. */
  datatype Vec = Vec(x: real, y: real) {
    function Plus(o: Vec): Vec { Vec(x + o.x, y + o.y) }
    function Minus(o: Vec): Vec { Vec(x - o.x, y - o.y) }
    function Times(k: real): Vec { Vec(x * k, y * k) }
  }

  const Zero: Vec := Vec(0.0, 0.0)

  /** Squared Euclidean distance; comparing it with a squared range
      replaces `distance_to` and its square root. */
  function DistSq(a: Vec, b: Vec): (d: real)
    ensures d >= 0.0
  {
    var dx := a.x - b.x;
    var dy := a.y - b.y;
    SquarePositive(dx);
    SquarePositive(dy);
    dx * dx + dy * dy
  }

  lemma SquarePositive(v: real)
    ensures v * v >= 0.0
    ensures v != 0.0 ==> v * v > 0.0
    ensures v == 0.0 ==> v * v == 0.0
  {
    if v < 0.0 {
      assert v * v == (-v) * (-v);
    }
  }

  /** The product of two non-negative reals is non-negative. */
  lemma MulNonNeg(a: real, b: real)
    requires a >= 0.0 && b >= 0.0
    ensures a * b >= 0.0
  {
  }

  /** `v * v`, named so that statements about a square root have a term
      to hang on. */
  function Square(v: real): real { v * v }

  /** Comparing a distance with a bound is comparing their squares: for the
      non-negative root `d` of `dsq`, `d < m` exactly when `dsq < m * m`. */
  lemma RootsCompare(dsq: real, m: real)
    requires m >= 0.0
    ensures forall d :: d >= 0.0 && Square(d) == dsq ==> (d < m <==> dsq < m * m)
  {
    forall d | d >= 0.0 && Square(d) == dsq
      ensures d < m <==> dsq < m * m
    {
      assert m * m - d * d == (m - d) * (m + d);
      if d < m {
        assert m + d > 0.0;
        assert (m - d) * (m + d) > 0.0;
      } else {
        MulNonNeg(d - m, d + m);
        assert (d - m) * (d + m) == d * d - m * m;
      }
    }
  }

  /** Python's `int(x)`: truncation toward zero. */
  function TruncInt(x: real): (n: int)
    ensures x >= 0.0 ==> 0 <= n && n as real <= x < n as real + 1.0
    ensures x < 0.0 ==> n <= 0 && n as real - 1.0 < x <= n as real
  {
    if x >= 0.0 then x.Floor else -((-x).Floor)
  }

  /** Python's `a % 360` on a float: the remainder takes the sign of the
      divisor, so it always lies in [0, 360). */
  function Mod360(a: real): (r: real)
    ensures 0.0 <= r < 360.0
    ensures 0.0 <= a < 360.0 ==> r == a
  {
    var q := (a / 360.0).Floor;
    assert q as real <= a / 360.0 < q as real + 1.0;
    assert 0.0 <= a < 360.0 ==> q == 0;
    a - 360.0 * q as real
  }

  function Min(a: real, b: real): real { if a <= b then a else b }

  function Max(a: real, b: real): real { if a >= b then a else b }

  /** What `random.uniform(a, b)` can return: a value between its two
      arguments, whichever is the larger. */
  predicate Between(v: real, a: real, b: real) {
    Min(a, b) <= v <= Max(a, b)
  }

  /** A countdown that only runs while positive: `if t > 0: t -= dt`. */
  function CountDown(t: real, dt: real): real {
    if t > 0.0 then t - dt else t
  }
}
