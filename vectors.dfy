/**
 * The vector utilities of pyboids/app/utils.py: squared norm, norm, distances,
 * normalisation with a numerical floor, truncation to a maximum length, and the
 * conversions between pixel and grid positions.
 *
 * Vectors are numpy arrays of two floats in the source; here they are pairs of
 * reals. `math.sqrt` is a call into the C library, so every member that takes a
 * norm receives the square root as its parameter `sqrt`, and the properties that
 * depend on it being the square root assume `IsSqrt(sqrt)`.
 */
module Vectors {
  import opened Options
  import Params

  datatype Vec2 = Vec2(x: real, y: real)

  const Zero: Vec2 := Vec2(0.0, 0.0)

  /** Norms below this value (1e-13) make `Normalize` return the zero vector. */
  const NormFloor: real := 0.0000000000001

  // numpy's element-wise operators on two-element arrays
  function Add(a: Vec2, b: Vec2): Vec2 { Vec2(a.x + b.x, a.y + b.y) }
  function Sub(a: Vec2, b: Vec2): Vec2 { Vec2(a.x - b.x, a.y - b.y) }
  function Scale(v: Vec2, k: real): Vec2 { Vec2(v.x * k, v.y * k) }
  function Div(v: Vec2, k: real): Vec2 requires k != 0.0 { Vec2(v.x / k, v.y / k) }

  /** `sqrt` returns the non-negative square root of every non-negative real. */
  ghost predicate IsSqrt(sqrt: real -> real) {
    forall x :: 0.0 <= x ==> 0.0 <= sqrt(x) && sqrt(x) * sqrt(x) == x
  }

  /** The square root is determined by its square. */
  lemma SqrtOf(sqrt: real -> real, x: real, r: real)
    requires IsSqrt(sqrt) && 0.0 <= r && r * r == x
    ensures sqrt(x) == r
  {
    var s := sqrt(x);
    assert 0.0 <= s && s * s == x;
    assert (s - r) * (s + r) == 0.0;
    ProductZero(s - r, s + r);
  }

  /** A product of reals is zero only when a factor is. */
  lemma ProductZero(a: real, b: real)
    ensures a * b == 0.0 ==> a == 0.0 || b == 0.0
  {
  }

  /** Arithmetic behind RandRange: a draw from [0, 1) scales a width into [0, width). */
  lemma ScaledDraw(draw: real, width: real)
    ensures 0.0 <= draw < 1.0 && 0.0 <= width ==> 0.0 <= draw * width <= width && (0.0 < width ==> draw * width < width)
  {
  }

  /** Arithmetic behind Norm2: a sum of two squares is non-negative and is zero only for zeros. */
  lemma SumOfSquares(x: real, y: real)
    ensures 0.0 <= x * x && 0.0 <= y * y
    ensures x * x + y * y == 0.0 <==> x == 0.0 && y == 0.0
  {
    if x != 0.0 {
      assert 0.0 < x * x;
    }
    if y != 0.0 {
      assert 0.0 < y * y;
    }
    ProductZero(x, x);
    ProductZero(y, y);
  }

  /** `randrange(a, b)`, with numpy's draw from [0, 1) passed in as `draw`. */
  function RandRange(a: real, b: real, draw: real): (r: real)
    ensures 0.0 <= draw < 1.0 && a <= b ==> a <= r <= b && (a < b ==> r < b)
  {
    var width := b - a;
    ScaledDraw(draw, width);
    a + draw * width
  }

  function PxToGrid(p: Vec2): (g: Vec2)
    ensures g.x * Params.Col == p.x && g.y * Params.Row == p.y
  {
    Vec2(p.x / Params.Col, p.y / Params.Row)
  }

  function GridToPx(g: Vec2): (p: Vec2)
    ensures p.x / Params.Col == g.x && p.y / Params.Row == g.y
  {
    Vec2(g.x * Params.Col, g.y * Params.Row)
  }

  /** Pixel and grid positions convert into each other without loss. */
  lemma GridRoundTrip(p: Vec2, g: Vec2)
    ensures GridToPx(PxToGrid(p)) == p
    ensures PxToGrid(GridToPx(g)) == g
  {
  }

  function Norm2(v: Vec2): (r: real)
    ensures 0.0 <= r
    ensures r == 0.0 <==> v == Zero
  {
    SumOfSquares(v.x, v.y);
    v.x * v.x + v.y * v.y
  }

  function Norm(v: Vec2, sqrt: real -> real): (r: real)
    ensures IsSqrt(sqrt) ==> 0.0 <= r && r * r == Norm2(v)
  {
    sqrt(v.x * v.x + v.y * v.y)
  }

  function Dist2(a: Vec2, b: Vec2): (r: real)
    ensures 0.0 <= r
    ensures r == 0.0 <==> a == b
  {
    var d := Sub(a, b);
    assert d == Zero <==> a == b;
    Norm2(d)
  }

  function Dist(a: Vec2, b: Vec2, sqrt: real -> real): (r: real)
    ensures IsSqrt(sqrt) ==> 0.0 <= r && r * r == Dist2(a, b)
  {
    Norm(Sub(a, b), sqrt)
  }

  /** Both distances are symmetric in their two points. */
  lemma DistSymmetric(a: Vec2, b: Vec2, sqrt: real -> real)
    ensures Dist2(a, b) == Dist2(b, a) && Dist(a, b, sqrt) == Dist(b, a, sqrt)
  {
    var d, e := Sub(a, b), Sub(b, a);
    assert d.x * d.x == e.x * e.x && d.y * d.y == e.y * e.y;
    assert d.x * d.x + d.y * d.y == e.x * e.x + e.y * e.y;
  }

  /** Distance 0 holds exactly between equal points. */
  lemma DistZero(a: Vec2, b: Vec2, sqrt: real -> real)
    requires IsSqrt(sqrt)
    ensures Dist(a, b, sqrt) == 0.0 <==> a == b
    ensures Dist2(a, a) == 0.0 && Dist(a, a, sqrt) == 0.0
  {
    SqrtOf(sqrt, 0.0, 0.0);
  }

  /** Scaling by a non-negative factor scales the norm by that factor. */
  lemma NormScale(v: Vec2, k: real, sqrt: real -> real)
    requires IsSqrt(sqrt) && 0.0 <= k
    ensures Norm(Scale(v, k), sqrt) == k * Norm(v, sqrt)
  {
    var n := Norm(v, sqrt);
    assert Norm2(Scale(v, k)) == k * k * Norm2(v);
    assert (k * n) * (k * n) == k * k * (n * n);
    SqrtOf(sqrt, Norm2(Scale(v, k)), k * n);
  }

  /**
   * `normalize(vector, pre_computed)`: the norm used is `preComputed` when it is
   * given and the computed norm otherwise; below the floor the result is zero,
   * otherwise scaling the result by that norm gives the input back.
   */
  function Normalize(v: Vec2, preComputed: Option<real>, sqrt: real -> real): (r: Vec2)
    ensures preComputed.GetOr(Norm(v, sqrt)) < NormFloor ==> r == Zero
    ensures NormFloor <= preComputed.GetOr(Norm(v, sqrt)) ==> Scale(r, preComputed.GetOr(Norm(v, sqrt))) == v
  {
    var n := if preComputed.Some? then preComputed.value else Norm(v, sqrt);
    if n < NormFloor then Zero else Div(v, n)
  }

  /** A vector of norm at least the floor normalises to a unit vector pointing the same way. */
  lemma NormalizeUnit(v: Vec2, sqrt: real -> real)
    requires IsSqrt(sqrt) && NormFloor <= Norm(v, sqrt)
    ensures Norm(Normalize(v, None, sqrt), sqrt) == 1.0
    ensures 0.0 < 1.0 / Norm(v, sqrt) && Normalize(v, None, sqrt) == Scale(v, 1.0 / Norm(v, sqrt))
  {
    var n := Norm(v, sqrt);
    assert Div(v, n) == Scale(v, 1.0 / n);
    NormScale(v, 1.0 / n, sqrt);
  }

  /** `truncate(vector, max_length)`: a vector no longer than the cap comes back unchanged. */
  function Truncate(v: Vec2, maxLength: real, sqrt: real -> real): (r: Vec2)
    ensures Norm(v, sqrt) <= maxLength ==> r == v
  {
    var n := Norm(v, sqrt);
    if n > maxLength then Scale(Normalize(v, Some(n), sqrt), maxLength) else v
  }

  /** A longer vector, of norm at least the floor, is cut to exactly the cap, keeping its direction. */
  lemma TruncateLong(v: Vec2, maxLength: real, sqrt: real -> real)
    requires IsSqrt(sqrt) && 0.0 <= maxLength < Norm(v, sqrt) && NormFloor <= Norm(v, sqrt)
    ensures Norm(Truncate(v, maxLength, sqrt), sqrt) == maxLength
    ensures Truncate(v, maxLength, sqrt) == Scale(v, maxLength / Norm(v, sqrt))
  {
    var n := Norm(v, sqrt);
    assert Scale(Div(v, n), maxLength) == Scale(v, maxLength / n);
    NormScale(v, maxLength / n, sqrt);
  }

  /** For a non-negative cap, the result is never longer than the cap. */
  lemma TruncateBound(v: Vec2, maxLength: real, sqrt: real -> real)
    requires IsSqrt(sqrt) && 0.0 <= maxLength
    ensures Norm(Truncate(v, maxLength, sqrt), sqrt) <= maxLength
  {
    var n := Norm(v, sqrt);
    if n > maxLength {
      if n < NormFloor {
        SqrtOf(sqrt, 0.0, 0.0);
        assert Truncate(v, maxLength, sqrt) == Zero;
      } else {
        TruncateLong(v, maxLength, sqrt);
      }
    }
  }

  /** Truncating twice to the same non-negative cap is truncating once. */
  lemma TruncateIdempotent(v: Vec2, maxLength: real, sqrt: real -> real)
    requires IsSqrt(sqrt) && 0.0 <= maxLength
    ensures Truncate(Truncate(v, maxLength, sqrt), maxLength, sqrt) == Truncate(v, maxLength, sqrt)
  {
    TruncateBound(v, maxLength, sqrt);
  }
}
