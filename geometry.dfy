/** Plane geometry shared by the calibration and measurement screens:
    points, Euclidean distance, and the image-to-screen projection that every
    handle and overlay line uses. */
module Geometry {

  /** A position in image space or in screen space; which one is implied by use. */
  datatype Point = Point(x: real, y: real)

  /** `Math.pow(v, 2)`. */
  function Sq(v: real): (r: real)
    ensures r >= 0.0
  {
    v * v
  }

  /** A product of two non-zero factors is non-zero. */
  lemma ProductNonzero(a: real, b: real, p: real)
    requires p == a * b
    requires a != 0.0 && b != 0.0
    ensures p != 0.0
  {
  }

  /** Only zero squares to zero. */
  lemma SqZero(v: real)
    ensures Sq(v) == 0.0 <==> v == 0.0
  {
    if v != 0.0 {
      ProductNonzero(v, v, Sq(v));
    }
  }

  /** `Math.pow(b.x - a.x, 2) + Math.pow(b.y - a.y, 2)`. */
  function SquaredDistance(a: Point, b: Point): (d: real)
    ensures d >= 0.0
    ensures d == 0.0 <==> a == b
  {
    SqZero(b.x - a.x);
    SqZero(b.y - a.y);
    Sq(b.x - a.x) + Sq(b.y - a.y)
  }

  /** `Math.sqrt` is a platform routine. The model receives it as a parameter
      that must return the non-negative square root of every non-negative number. */
  ghost predicate IsSqrt(sqrt: real -> real) {
    forall v :: 0.0 <= v ==> 0.0 <= sqrt(v) && sqrt(v) * sqrt(v) == v
  }

  /** A square root is determined by its square: `sqrt(r * r) == r` for `r >= 0`. */
  lemma SqrtUnique(sqrt: real -> real, r: real)
    requires IsSqrt(sqrt)
    requires 0.0 <= r
    ensures sqrt(r * r) == r
  {
    var s := sqrt(r * r);
    assert 0.0 <= s && s * s == r * r;
    var diff := (s - r) * (s + r);
    assert diff == s * s - r * r;
    if s != r {
      assert s + r != 0.0;
      ProductNonzero(s - r, s + r, diff);
    }
  }

  /** Euclidean distance, `Math.sqrt(Math.pow(b.x - a.x, 2) + Math.pow(b.y - a.y, 2))`. */
  function Distance(a: Point, b: Point, sqrt: real -> real): (d: real)
    requires IsSqrt(sqrt)
    ensures d >= 0.0 && d * d == SquaredDistance(a, b)
    ensures d == 0.0 <==> a == b
  {
    var d := sqrt(SquaredDistance(a, b));
    SqZero(d);
    d
  }

  /** Points whose squared distance is `r * r`, `r >= 0`, are `r` apart. */
  lemma {:induction false} DistanceIs(a: Point, b: Point, r: real, sqrt: real -> real)
    requires IsSqrt(sqrt)
    requires 0.0 <= r && SquaredDistance(a, b) == r * r
    ensures Distance(a, b, sqrt) == r
  {
    SqrtUnique(sqrt, r);
  }

  /** Two points on one horizontal line are as far apart as their abscissae. */
  lemma {:induction false} DistanceAlongAxis(a: Point, b: Point, sqrt: real -> real)
    requires IsSqrt(sqrt)
    requires a.y == b.y && a.x <= b.x
    ensures Distance(a, b, sqrt) == b.x - a.x
  {
    assert Sq(b.y - a.y) == 0.0;
    DistanceIs(a, b, b.x - a.x, sqrt);
  }

  /** Distance does not depend on the order of its endpoints. */
  lemma {:induction false} DistanceSymmetric(a: Point, b: Point, sqrt: real -> real)
    requires IsSqrt(sqrt)
    ensures Distance(a, b, sqrt) == Distance(b, a, sqrt)
  {
    assert Sq(b.x - a.x) == Sq(a.x - b.x) by {
      assert (a.x - b.x) == -(b.x - a.x);
    }
    assert Sq(b.y - a.y) == Sq(a.y - b.y) by {
      assert (a.y - b.y) == -(b.y - a.y);
    }
    assert SquaredDistance(a, b) == SquaredDistance(b, a);
  }

  function Translate(p: Point, dx: real, dy: real): (r: Point)
    ensures r.x - p.x == dx && r.y - p.y == dy
  {
    Point(p.x + dx, p.y + dy)
  }

  /** Distance is unchanged when both endpoints move by the same vector. */
  lemma DistanceTranslationInvariant(a: Point, b: Point, dx: real, dy: real, sqrt: real -> real)
    requires IsSqrt(sqrt)
    ensures Distance(Translate(a, dx, dy), Translate(b, dx, dy), sqrt) == Distance(a, b, sqrt)
  {
    var a', b' := Translate(a, dx, dy), Translate(b, dx, dy);
    assert b'.x - a'.x == b.x - a.x && b'.y - a'.y == b.y - a.y;
    assert SquaredDistance(a', b') == SquaredDistance(a, b);
  }

  /** Image space to screen space: `p * scale + translate`, as the handles and
      the overlay lines are drawn. */
  function ToScreen(p: Point, scale: real, translateX: real, translateY: real): (r: Point)
    ensures r.x - translateX == p.x * scale && r.y - translateY == p.y * scale
  {
    Point(p.x * scale + translateX, p.y * scale + translateY)
  }

  /** Projection with a positive scale loses nothing: different image points
      land on different screen points. */
  lemma ToScreenInjective(p: Point, q: Point, scale: real, translateX: real, translateY: real)
    requires scale > 0.0
    requires ToScreen(p, scale, translateX, translateY) == ToScreen(q, scale, translateX, translateY)
    ensures p == q
  {
    assert (p.x - q.x) * scale == 0.0;
    assert (p.y - q.y) * scale == 0.0;
  }

  /** Zoom scales every on-screen length by `scale`, and pan does not change it:
      screen distances are image distances times the zoom. */
  lemma {:induction false} ToScreenScalesDistance(a: Point, b: Point, scale: real, translateX: real, translateY: real)
    ensures SquaredDistance(ToScreen(a, scale, translateX, translateY), ToScreen(b, scale, translateX, translateY))
         == Sq(scale) * SquaredDistance(a, b)
  {
    var a', b' := ToScreen(a, scale, translateX, translateY), ToScreen(b, scale, translateX, translateY);
    assert b'.x - a'.x == (b.x - a.x) * scale;
    assert b'.y - a'.y == (b.y - a.y) * scale;
    assert Sq((b.x - a.x) * scale) == Sq(scale) * Sq(b.x - a.x);
    assert Sq((b.y - a.y) * scale) == Sq(scale) * Sq(b.y - a.y);
  }
}
