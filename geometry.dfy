/** Points of the canvas and the arithmetic every component shares.
    JavaScript numbers are modelled as mathematical reals; Math.sqrt is not
    modelled, so a distance is stated through its square. */
module Geometry {

  datatype Point = Point(x: real, y: real)

  /** A loaded `HTMLImageElement`: its displayed `width` and `height` and the
      `naturalWidth` and `naturalHeight` of the underlying raster. */
  datatype Picture = Picture(width: real, height: real, naturalWidth: real, naturalHeight: real)

  /** A decoded raster has positive dimensions. */
  predicate ValidPicture(p: Picture)
  {
    p.width > 0.0 && p.height > 0.0 && p.naturalWidth > 0.0 && p.naturalHeight > 0.0
  }

  function Abs(v: real): (r: real)
    ensures r >= 0.0 && (r == v || r == -v)
  {
    if v < 0.0 then -v else v
  }

  function Min(a: real, b: real): (r: real)
    ensures r <= a && r <= b && (r == a || r == b)
  {
    if a <= b then a else b
  }

  function Max(a: real, b: real): (r: real)
    ensures r >= a && r >= b && (r == a || r == b)
  {
    if a >= b then a else b
  }

  lemma SquareNonNegative(v: real)
    ensures v * v >= 0.0
  {
    if v < 0.0 {
      var w := -v;
      assert w * w > 0.0;
      assert v * v == w * w;
    } else if v > 0.0 {
      assert v * v > 0.0;
    }
  }

  /** Sign rules of products and quotients, spelled out for the solver. */
  lemma NonNegativeProduct(x: real, y: real)
    requires x >= 0.0 && y >= 0.0
    ensures x * y >= 0.0
  {
  }

  lemma NonNegativeQuotient(x: real, y: real)
    requires x >= 0.0 && y > 0.0
    ensures x / y >= 0.0
  {
  }

  lemma PositiveProduct(x: real, y: real)
    requires x > 0.0 && y > 0.0
    ensures x * y > 0.0
  {
  }

  lemma PositiveQuotient(x: real, y: real)
    requires x > 0.0 && y > 0.0
    ensures x / y > 0.0
  {
  }

  /** The square of a difference of two distinct numbers is positive. */
  lemma DiffSquarePositive(p: real, q: real)
    requires p != q
    ensures (q - p) * (q - p) > 0.0
  {
    var d := q - p;
    calc {
      (q - p) * (q - p);
      == d * d;
      > { if d > 0.0 { PositiveProduct(d, d); } else { PositiveProduct(-d, -d); assert (-d) * (-d) == d * d; } }
      0.0;
    }
  }

  /** A number less than `c` away from zero has a square below `c * c`. */
  lemma SquareBelow(v: real, c: real)
    ensures Abs(v) < c ==> v * v < c * c
  {
    var a := Abs(v);
    if a < c {
      calc {
        v * v;
        == { if v < 0.0 { assert (-v) * (-v) == v * v; } }
        a * a;
        <= { NonNegativeProduct(a, c - a); assert a * (c - a) == a * c - a * a; }
        a * c;
        < { PositiveProduct(c, c - a); assert c * (c - a) == c * c - c * a; }
        c * c;
      }
    }
  }

  /** Distinct points differ along some axis, whose squared difference is then positive. */
  lemma ApartAlongSomeAxis(a: Point, b: Point)
    ensures a != b ==> (b.x - a.x) * (b.x - a.x) > 0.0 || (b.y - a.y) * (b.y - a.y) > 0.0
  {
    if a.x != b.x {
      DiffSquarePositive(a.x, b.x);
    } else if a.y != b.y {
      DiffSquarePositive(a.y, b.y);
    }
  }

  /** The square of the Euclidean distance between two points:
      `(x2 - x1) ** 2 + (y2 - y1) ** 2`, the radicand of every Math.sqrt call.
      It is zero exactly for equal points. */
  function SqDist(a: Point, b: Point): (d: real)
    ensures d >= 0.0
    ensures a == b ==> d == 0.0
    ensures a != b ==> d > 0.0
  {
    var dx, dy := b.x - a.x, b.y - a.y;
    SquareNonNegative(dx);
    SquareNonNegative(dy);
    ApartAlongSomeAxis(a, b);
    dx * dx + dy * dy
  }

  lemma SqDistSymmetric(a: Point, b: Point)
    ensures SqDist(a, b) == SqDist(b, a)
  {
    assert (b.x - a.x) * (b.x - a.x) == (a.x - b.x) * (a.x - b.x);
    assert (b.y - a.y) * (b.y - a.y) == (a.y - b.y) * (a.y - b.y);
  }

  /** Multiplying both points by a factor multiplies the squared distance by its square. */
  lemma SqDistScaled(a: Point, b: Point, k: real)
    ensures SqDist(Point(a.x * k, a.y * k), Point(b.x * k, b.y * k)) == k * k * SqDist(a, b)
  {
    var dx, dy := b.x - a.x, b.y - a.y;
    assert b.x * k - a.x * k == k * dx;
    assert b.y * k - a.y * k == k * dy;
    assert (k * dx) * (k * dx) == k * k * (dx * dx);
    assert (k * dy) * (k * dy) == k * k * (dy * dy);
  }

  /** `points.map(p => ({ x: p.x * sx, y: p.y * sy }))`: component-wise rescaling. */
  function ScalePoints(pts: seq<Point>, sx: real, sy: real): (r: seq<Point>)
    ensures |r| == |pts|
    ensures forall i :: 0 <= i < |r| ==> r[i] == Point(pts[i].x * sx, pts[i].y * sy)
  {
    seq(|pts|, i requires 0 <= i < |pts| => Point(pts[i].x * sx, pts[i].y * sy))
  }

  /** Rescaling by the reciprocal factors undoes a rescaling. */
  lemma {:induction false} ScalePointsInverse(pts: seq<Point>, sx: real, sy: real)
    requires sx != 0.0 && sy != 0.0
    ensures ScalePoints(ScalePoints(pts, sx, sy), 1.0 / sx, 1.0 / sy) == pts
  {
    var back := ScalePoints(ScalePoints(pts, sx, sy), 1.0 / sx, 1.0 / sy);
    forall i | 0 <= i < |pts|
      ensures back[i] == pts[i]
    {
      assert pts[i].x * sx * (1.0 / sx) == pts[i].x;
      assert pts[i].y * sy * (1.0 / sy) == pts[i].y;
    }
  }

  /** `(i + 1) % n`: the next index of a closed polygon, wrapping from the last to the first. */
  function Next(i: nat, n: nat): (j: nat)
    requires i < n
    ensures j == if i + 1 < n then i + 1 else 0
  {
    if i + 1 == n then assert (i + 1) % n == 0; (i + 1) % n else (i + 1) % n
  }

  /** The last element of a non-empty sequence. */
  function Last<T>(s: seq<T>): T
    requires |s| > 0
  {
    s[|s| - 1]
  }
}
