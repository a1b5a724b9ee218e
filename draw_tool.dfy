/** The single-tool draw hook: a press/drag/release state machine for one line, one
    rectangle or one polygon at a time, whose release writes the measured value
    scaled to metres. The polygon area is the shoelace formula. */
module DrawToolHook {
  import opened Wrappers
  import opened Geometry

  datatype ToolType = LineTool | RectangleTool | PolygonTool

  /** The `result` text without its `toFixed(2)` formatting: empty, a line length (held
      by its square) or an area in square metres. */
  datatype Reading = Blank | Length(squared: real) | Area(value: real)

  /** The two-term contribution `a.x * b.y - b.x * a.y` of the edge from `a` to `b`. */
  function Cross(a: Point, b: Point): real
  {
    a.x * b.y - b.x * a.y
  }

  lemma CrossAntisymmetric(a: Point, b: Point)
    ensures Cross(b, a) == -Cross(a, b)
  {
  }

  /** The accumulator of the shoelace loop after its first `k` rounds: the contributions
      of the edges `i -> (i + 1) % n` for `i < k`. */
  function ShoelaceSum(pts: seq<Point>, k: nat): real
    requires k <= |pts|
  {
    if k == 0 then 0.0
    else ShoelaceSum(pts, k - 1) + Cross(pts[k - 1], pts[Next(k - 1, |pts|)])
  }

  /** The area enclosed by the closed polygon through `pts`, by the shoelace formula. */
  function PolygonArea(pts: seq<Point>): (area: real)
    ensures area >= 0.0
    ensures area == ShoelaceSum(pts, |pts|) / 2.0 || area == -(ShoelaceSum(pts, |pts|) / 2.0)
  {
    Abs(ShoelaceSum(pts, |pts|) / 2.0)
  }

  /** `calculatePolygonArea`: the `for` loop adds `x_i * y_j` and subtracts `x_j * y_i`
      for every edge `i -> j = (i + 1) % n`, then takes `Math.abs(area / 2)`. */
  method CalculatePolygonArea(points: seq<Point>) returns (area: real)
    ensures area == PolygonArea(points)
    ensures area >= 0.0
  {
    var sum := 0.0;
    var n := |points|;
    var i := 0;
    while i < n
      invariant 0 <= i <= n
      invariant sum == ShoelaceSum(points, i)
    {
      var j := (i + 1) % n;
      assert j == Next(i, n);
      sum := sum + points[i].x * points[j].y;
      sum := sum - points[j].x * points[i].y;
      i := i + 1;
    }
    area := Abs(sum / 2.0);
  }

  /** The contributions of the open path `s[0] -> s[1] -> ... -> s[|s|-1]`. */
  function PathSum(s: seq<Point>): real
    decreases |s|
  {
    if |s| < 2 then 0.0 else Cross(s[0], s[1]) + PathSum(s[1..])
  }

  lemma {:induction false} PathSumSnoc(s: seq<Point>, x: Point)
    requires |s| >= 1
    ensures PathSum(s + [x]) == PathSum(s) + Cross(Last(s), x)
    decreases |s|
  {
    if |s| == 1 {
      assert (s + [x])[1..] == [x];
    } else {
      assert (s + [x])[1..] == s[1..] + [x];
      PathSumSnoc(s[1..], x);
    }
  }

  /** The loop accumulator after `k - 1` rounds is the open path through the first `k` points. */
  lemma {:induction false} ShoelacePrefix(pts: seq<Point>, k: nat)
    requires 1 <= k <= |pts|
    ensures ShoelaceSum(pts, k - 1) == PathSum(pts[..k])
  {
    if k > 1 {
      ShoelacePrefix(pts, k - 1);
      assert pts[..k] == pts[..k - 1] + [pts[k - 1]];
      PathSumSnoc(pts[..k - 1], pts[k - 1]);
    }
  }

  /** The full accumulator is the open path plus the closing edge from the last point back
      to the first. */
  lemma ShoelaceClosed(pts: seq<Point>)
    requires |pts| >= 1
    ensures ShoelaceSum(pts, |pts|) == PathSum(pts) + Cross(Last(pts), pts[0])
  {
    ShoelacePrefix(pts, |pts|);
    assert pts[..|pts|] == pts;
  }

  function Reverse<T>(s: seq<T>): (r: seq<T>)
    ensures |r| == |s|
    ensures forall i :: 0 <= i < |s| ==> r[i] == s[|s| - 1 - i]
  {
    if s == [] then [] else Reverse(s[1..]) + [s[0]]
  }

  /** Walking a path backwards negates its sum. */
  lemma {:induction false} PathSumReverse(s: seq<Point>)
    ensures PathSum(Reverse(s)) == -PathSum(s)
    decreases |s|
  {
    if |s| >= 2 {
      var t := s[1..];
      assert Reverse(s) == Reverse(t) + [s[0]];
      PathSumReverse(t);
      PathSumSnoc(Reverse(t), s[0]);
      assert Last(Reverse(t)) == t[0] == s[1];
      CrossAntisymmetric(s[0], s[1]);
    } else if |s| == 1 {
      assert Reverse(s) == s;
    }
  }

  /** Listing the vertices in the opposite order negates the shoelace sum. */
  lemma ShoelaceReverse(pts: seq<Point>)
    ensures ShoelaceSum(Reverse(pts), |pts|) == -ShoelaceSum(pts, |pts|)
  {
    if |pts| >= 1 {
      var r := Reverse(pts);
      ShoelaceClosed(pts);
      ShoelaceClosed(r);
      PathSumReverse(pts);
      assert Last(r) == pts[0] && r[0] == Last(pts);
      CrossAntisymmetric(Last(pts), pts[0]);
    }
  }

  /** The area does not depend on the direction in which the vertices are listed. */
  lemma PolygonAreaReversed(pts: seq<Point>)
    ensures PolygonArea(Reverse(pts)) == PolygonArea(pts)
  {
    ShoelaceReverse(pts);
    var s := ShoelaceSum(pts, |pts|);
    assert -s / 2.0 == -(s / 2.0);
  }

  /** The shoelace sum of a quadrilateral, edge by edge. */
  lemma ShoelaceFour(c: seq<Point>)
    requires |c| == 4
    ensures ShoelaceSum(c, 4) == Cross(c[0], c[1]) + Cross(c[1], c[2]) + Cross(c[2], c[3]) + Cross(c[3], c[0])
  {
    assert ShoelaceSum(c, 1) == Cross(c[0], c[1]);
    assert ShoelaceSum(c, 2) == ShoelaceSum(c, 1) + Cross(c[1], c[2]);
    assert ShoelaceSum(c, 3) == ShoelaceSum(c, 2) + Cross(c[2], c[3]);
    assert ShoelaceSum(c, 4) == ShoelaceSum(c, 3) + Cross(c[3], c[0]);
  }

  /** The shoelace sum of an axis-aligned rectangle listed corner by corner is twice the
      signed product of its sides. */
  lemma RectangleShoelace(a: Point, b: Point)
    ensures ShoelaceSum(RectangleCorners(a, b), 4) == 2.0 * ((b.x - a.x) * (b.y - a.y))
  {
    ShoelaceFour(RectangleCorners(a, b));
  }

  function RectangleCorners(a: Point, b: Point): seq<Point>
  {
    [a, Point(b.x, a.y), b, Point(a.x, b.y)]
  }

  lemma AbsProduct(u: real, w: real)
    ensures Abs(u * w) == Abs(u) * Abs(w)
  {
    if u >= 0.0 && w >= 0.0 {
      NonNegativeProduct(u, w);
    } else if u < 0.0 && w >= 0.0 {
      NonNegativeProduct(-u, w);
    } else if u >= 0.0 && w < 0.0 {
      NonNegativeProduct(u, -w);
    } else {
      NonNegativeProduct(-u, -w);
    }
  }

  /** The rectangle and polygon tools agree: the shoelace area of the four corners spanned by
      two opposite points is `|dx| * |dy|`, the rectangle tool's area before scaling. */
  lemma RectangleAsPolygon(a: Point, b: Point)
    ensures PolygonArea(RectangleCorners(a, b)) == Abs(b.x - a.x) * Abs(b.y - a.y)
  {
    RectangleShoelace(a, b);
    var p := (b.x - a.x) * (b.y - a.y);
    assert 2.0 * p / 2.0 == p;
    AbsProduct(b.x - a.x, b.y - a.y);
  }

  /** The unit square has area 1. */
  lemma UnitSquareArea()
    ensures PolygonArea([Point(0.0, 0.0), Point(1.0, 0.0), Point(1.0, 1.0), Point(0.0, 1.0)]) == 1.0
  {
    var o, u := Point(0.0, 0.0), Point(1.0, 1.0);
    RectangleAsPolygon(o, u);
    assert RectangleCorners(o, u) == [Point(0.0, 0.0), Point(1.0, 0.0), Point(1.0, 1.0), Point(0.0, 1.0)];
    assert Abs(u.x - o.x) == 1.0 && Abs(u.y - o.y) == 1.0;
  }

  /** What a release writes for a line, given the two points the hook holds. */
  function LineReading(a: Point, b: Point, scale: real): (r: Reading)
    ensures r.Length? && r.squared >= 0.0
  {
    var d := SqDist(a, b);
    SquareNonNegative(scale);
    NonNegativeProduct(d, scale * scale);
    Length(d * (scale * scale))
  }

  /** The state behind `useDrawTool(scale)`. */
  class DrawTool {
    var tool: ToolType
    var points: seq<Point>
    var isDrawing: bool
    var result: Reading
    const scale: real

    /** A drag in progress always holds its anchor point. */
    ghost predicate Valid()
      reads this
    {
      isDrawing ==> |points| >= 1
    }

    constructor(scale: real)
      ensures Valid()
      ensures tool == LineTool && points == [] && !isDrawing && result == Blank && this.scale == scale
    {
      tool := LineTool;
      points := [];
      isDrawing := false;
      result := Blank;
      this.scale := scale;
    }

    method SetTool(t: ToolType)
      requires Valid()
      modifies this`tool
      ensures Valid()
      ensures tool == t
    {
      tool := t;
    }

    /** `startDrawing`: ignored without a pointer; a polygon gains a vertex, a line or
        rectangle restarts from the pointer and a drag begins. */
    method StartDrawing(pointer: Option<Point>)
      requires Valid()
      modifies this`points, this`isDrawing
      ensures Valid()
      ensures pointer.None? ==> points == old(points) && isDrawing == old(isDrawing)
      ensures pointer.Some? && tool == PolygonTool ==>
        points == old(points) + [pointer.value] && isDrawing == old(isDrawing)
      ensures pointer.Some? && tool != PolygonTool ==> points == [pointer.value] && isDrawing
    {
      if pointer.None? {
        return;
      }
      if tool == PolygonTool {
        points := points + [pointer.value];
      } else {
        points := [pointer.value];
        isDrawing := true;
      }
    }

    /** `draw`: during a line or rectangle drag the second point follows the pointer. */
    method Draw(pos: Option<Point>)
      requires Valid()
      modifies this`points
      ensures Valid()
      ensures !old(isDrawing) || tool == PolygonTool || pos.None? ==> points == old(points)
      ensures old(isDrawing) && tool != PolygonTool && pos.Some? ==> points == [old(points)[0], pos.value]
    {
      if !isDrawing || tool == PolygonTool {
        return;
      }
      if pos.None? {
        return;
      }
      points := [points[0], pos.value];
    }

    /** `endDrawing`: the drag ends and the measurement of the held points is written. With
        fewer than two points a line or rectangle release fails before writing (JavaScript
        destructures `undefined`), and a polygon with at most two vertices writes nothing. */
    method EndDrawing()
      requires Valid()
      modifies this`isDrawing, this`result
      ensures Valid()
      ensures !isDrawing
      ensures tool == LineTool && |points| >= 2 ==> result == LineReading(points[0], points[1], scale)
      ensures tool == RectangleTool && |points| >= 2 ==>
        result == Area(Abs(points[1].x - points[0].x) * Abs(points[1].y - points[0].y) * scale * scale)
      ensures tool == PolygonTool && |points| > 2 ==> result == Area(PolygonArea(points) * scale * scale)
      ensures (tool != PolygonTool && |points| < 2) || (tool == PolygonTool && |points| <= 2) ==>
        result == old(result)
    {
      isDrawing := false;
      if tool == LineTool {
        if |points| >= 2 {
          result := LineReading(points[0], points[1], scale);
        }
      } else if tool == RectangleTool {
        if |points| >= 2 {
          var a, b := points[0], points[1];
          var w := Abs(b.x - a.x);
          var h := Abs(b.y - a.y);
          result := Area(w * h * scale * scale);
        }
      } else if |points| > 2 {
        var area := CalculatePolygonArea(points);
        result := Area(area * scale * scale);
      }
    }

    /** `reset`: no points, an empty result and no drag. */
    method Reset()
      requires Valid()
      modifies this`points, this`result, this`isDrawing
      ensures Valid()
      ensures points == [] && result == Blank && !isDrawing
    {
      points := [];
      result := Blank;
      isDrawing := false;
    }
  }

  /** The length a line release reports is the same whichever end the drag started from. */
  lemma LineReadingSymmetric(a: Point, b: Point, scale: real)
    ensures LineReading(a, b, scale) == LineReading(b, a, scale)
  {
    SqDistSymmetric(a, b);
  }

  /** A rectangle release reports the same area whichever corner the drag started from,
      and it is never negative once scaled. */
  lemma RectangleReadingSymmetric(a: Point, b: Point, scale: real)
    ensures Abs(b.x - a.x) * Abs(b.y - a.y) == Abs(a.x - b.x) * Abs(a.y - b.y)
    ensures Abs(b.x - a.x) * Abs(b.y - a.y) * scale * scale >= 0.0
  {
    assert Abs(b.x - a.x) == Abs(a.x - b.x);
    assert Abs(b.y - a.y) == Abs(a.y - b.y);
    var w, h := Abs(b.x - a.x), Abs(b.y - a.y);
    NonNegativeProduct(w, h);
    SquareNonNegative(scale);
    NonNegativeProduct(w * h, scale * scale);
    assert w * h * scale * scale == (w * h) * (scale * scale);
  }
}
