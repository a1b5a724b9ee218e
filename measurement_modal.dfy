/** The measurement modal: the user picks a tool, clicks points on the calibrated
    photo, and each completed line, rectangle or polygon is kept with its points in
    image space (the pointer divided by the zoom); the labels give lengths in metres
    from the calibration factor `scale`. */
module MeasurementModal {
  import opened Wrappers
  import opened Geometry

  datatype Tool = Line | Rect | Polygon

  datatype Shape = Shape(kind: Tool, points: seq<Point>)

  /** Committed shapes and the in-progress point buffer. */
  datatype Draft = Draft(shapes: seq<Shape>, current: seq<Point>)

  /** `const CloseDistance`: a polygon closes on a click within 10 units of its first
      point on both axes. */
  const CloseDistance: real := 10.0

  const MinZoom: real := 0.2
  const MaxZoom: real := 5.0
  const ZoomStep: real := 0.2

  /** The stored point for a pointer position: both coordinates divided by the zoom,
      so that multiplying back by the zoom gives the pointer. */
  function StoredPoint(pointer: Point, zoom: real): (p: Point)
    requires zoom != 0.0
    ensures Point(p.x * zoom, p.y * zoom) == pointer
  {
    Point(pointer.x / zoom, pointer.y / zoom)
  }

  /** `isClosing`: the buffer after the click has at least three points and the click
      is strictly within the close distance of the first point on each axis. A closing
      click therefore lies less than `10 * sqrt(2)` from the first point, and a click right
      on the first point of a buffer of two or more closes it. */
  predicate IsClosing(newPoints: seq<Point>)
    ensures IsClosing(newPoints) ==>
      |newPoints| >= 3 && SqDist(newPoints[0], Last(newPoints)) < 2.0 * (CloseDistance * CloseDistance)
    ensures |newPoints| >= 3 && Last(newPoints) == newPoints[0] ==> IsClosing(newPoints)
  {
    |newPoints| >= 3
    && var first, last := newPoints[0], Last(newPoints);
    SquareBelow(last.x - first.x, CloseDistance);
    SquareBelow(last.y - first.y, CloseDistance);
    Abs(first.x - last.x) < CloseDistance && Abs(first.y - last.y) < CloseDistance
  }

  /** One accepted click at stored point `p` under `tool`: the committed shapes are kept as a
      prefix, and either the click is buffered or one shape of the tool is committed from a
      prefix of the buffer and the click, and the buffer is cleared. */
  function Click(tool: Tool, d: Draft, p: Point): (r: Draft)
    ensures d.shapes <= r.shapes && |r.shapes| <= |d.shapes| + 1
    ensures |r.shapes| == |d.shapes| ==> r.current == d.current + [p]
    ensures |r.shapes| > |d.shapes| ==>
      r.current == [] && Last(r.shapes).kind == tool && Last(r.shapes).points <= d.current + [p]
  {
    var newPoints := d.current + [p];
    if tool != Polygon then
      if |newPoints| == 2 then Draft(d.shapes + [Shape(tool, newPoints)], [])
      else Draft(d.shapes, newPoints)
    else if IsClosing(newPoints) then Draft(d.shapes + [Shape(Polygon, d.current)], [])
    else Draft(d.shapes, newPoints)
  }

  /** A click never changes or reorders the shapes already committed and adds at most one;
      when it adds none, the buffer grows by exactly the clicked point. */
  lemma ClickAppendsOnly(tool: Tool, d: Draft, p: Point)
    ensures var r := Click(tool, d, p);
      (r.shapes == d.shapes && r.current == d.current + [p])
      || (|r.shapes| == |d.shapes| + 1 && r.shapes[..|d.shapes|] == d.shapes && r.current == [])
  {
    var r := Click(tool, d, p);
    if |r.shapes| != |d.shapes| {
      assert (d.shapes + [r.shapes[|d.shapes|]])[..|d.shapes|] == d.shapes;
    }
  }

  /** With the line or rectangle tool, a click commits exactly when it is the second point
      of the buffer, and the committed shape holds the buffered point and the click. */
  lemma LineRectCommit(tool: Tool, d: Draft, p: Point)
    requires tool != Polygon
    ensures var r := Click(tool, d, p);
      (|r.shapes| == |d.shapes| + 1 <==> |d.current| == 1)
      && (|d.current| == 1 ==> r.shapes == d.shapes + [Shape(tool, [d.current[0], p])] && r.current == [])
      && (|d.current| != 1 ==> r == Draft(d.shapes, d.current + [p]))
  {
    if |d.current| == 1 {
      assert d.current + [p] == [d.current[0], p];
    }
  }

  /** With the polygon tool, a click commits exactly when it closes the buffer; the
      committed polygon is the buffer before the closing click, which has at least two points. */
  lemma PolygonCommit(d: Draft, p: Point)
    ensures var r := Click(Polygon, d, p);
      (|r.shapes| == |d.shapes| + 1 <==> IsClosing(d.current + [p]))
      && (IsClosing(d.current + [p]) ==>
            r.shapes == d.shapes + [Shape(Polygon, d.current)] && |d.current| >= 2 && r.current == [])
  {
  }

  /** A second click on the first point of a polygon never closes it. */
  lemma SecondClickNeverCloses(d: Draft, p: Point)
    requires |d.current| <= 1
    ensures Click(Polygon, d, p) == Draft(d.shapes, d.current + [p])
  {
  }

  /** The shapes a click can produce: lines and rectangles have two points, polygons at least two. */
  predicate WellFormedShape(s: Shape)
  {
    if s.kind == Polygon then |s.points| >= 2 else |s.points| == 2
  }

  predicate WellFormedShapes(shapes: seq<Shape>)
  {
    forall i :: 0 <= i < |shapes| ==> WellFormedShape(shapes[i])
  }

  lemma ClickKeepsShapesWellFormed(tool: Tool, d: Draft, p: Point)
    requires WellFormedShapes(d.shapes)
    ensures WellFormedShapes(Click(tool, d, p).shapes)
  {
  }

  /** The clicks of a gesture, one after another. */
  function Clicks(tool: Tool, d: Draft, ps: seq<Point>): Draft
    decreases |ps|
  {
    if ps == [] then d else Clicks(tool, Click(tool, d, ps[0]), ps[1..])
  }

  /** The tool buttons keep the buffer: after a polygon buffer of two or more points, the
      line and rectangle tools never commit again until the buffer is cleared. */
  lemma {:induction false} StaleBufferBlocksCommits(tool: Tool, d: Draft, ps: seq<Point>)
    requires tool != Polygon && |d.current| >= 2
    ensures Clicks(tool, d, ps) == Draft(d.shapes, d.current + ps)
    decreases |ps|
  {
    if ps != [] {
      var next := Click(tool, d, ps[0]);
      assert next == Draft(d.shapes, d.current + [ps[0]]);
      StaleBufferBlocksCommits(tool, next, ps[1..]);
      assert d.current + [ps[0]] + ps[1..] == d.current + ps;
    }
  }

  /** `shapes.filter(s => s.type !== kind)`. */
  function WithoutKind(shapes: seq<Shape>, kind: Tool): (r: seq<Shape>)
    ensures |r| <= |shapes|
    ensures forall s :: s in r <==> s in shapes && s.kind != kind
  {
    if shapes == [] then []
    else if shapes[0].kind == kind then WithoutKind(shapes[1..], kind)
    else [shapes[0]] + WithoutKind(shapes[1..], kind)
  }

  /** Filtering a concatenation filters each part in place: the kept shapes keep their order. */
  lemma {:induction false} WithoutKindConcat(a: seq<Shape>, b: seq<Shape>, kind: Tool)
    ensures WithoutKind(a + b, kind) == WithoutKind(a, kind) + WithoutKind(b, kind)
    decreases |a|
  {
    if a == [] {
      assert a + b == b;
    } else {
      assert (a + b)[0] == a[0] && (a + b)[1..] == a[1..] + b;
      WithoutKindConcat(a[1..], b, kind);
    }
  }

  /** Removing a kind twice is removing it once. */
  lemma {:induction false} WithoutKindIdempotent(shapes: seq<Shape>, kind: Tool)
    ensures WithoutKind(WithoutKind(shapes, kind), kind) == WithoutKind(shapes, kind)
    decreases |shapes|
  {
    if shapes != [] {
      WithoutKindIdempotent(shapes[1..], kind);
      if shapes[0].kind != kind {
        var rest := WithoutKind(shapes[1..], kind);
        assert ([shapes[0]] + rest)[0] == shapes[0] && ([shapes[0]] + rest)[1..] == rest;
      }
    }
  }

  /** Removing a kind keeps every shape of another kind where it was relative to the others. */
  lemma {:induction false} WithoutKindKeepsOthers(shapes: seq<Shape>, kind: Tool)
    requires forall i :: 0 <= i < |shapes| ==> shapes[i].kind != kind
    ensures WithoutKind(shapes, kind) == shapes
    decreases |shapes|
  {
    if shapes != [] {
      WithoutKindKeepsOthers(shapes[1..], kind);
      assert [shapes[0]] + shapes[1..] == shapes;
    }
  }

  /** `Math.min(z + 0.2, 5)`. */
  function ZoomInStep(z: real): (r: real)
    ensures r <= MaxZoom && r <= z + ZoomStep
  {
    Min(z + ZoomStep, MaxZoom)
  }

  /** `Math.max(z - 0.2, 0.2)`. */
  function ZoomOutStep(z: real): (r: real)
    ensures r >= MinZoom && r >= z - ZoomStep
  {
    Max(z - ZoomStep, MinZoom)
  }

  predicate ZoomInRange(z: real)
  {
    MinZoom <= z <= MaxZoom
  }

  /** A zoom button press: true for Zoom +, false for Zoom -. A press never takes the zoom
      above the larger of it and 5, nor below the smaller of it and 0.2. */
  function PressZoom(z: real, zoomIn: bool): (r: real)
    ensures Min(z, MinZoom) <= r <= Max(z, MaxZoom)
  {
    if zoomIn then ZoomInStep(z) else ZoomOutStep(z)
  }

  /** A sequence of presses, one after another: from any zoom, the presses never take it
      above the larger of it and 5, nor below the smaller of it and 0.2. */
  function PressZoomButtons(z: real, presses: seq<bool>): (r: real)
    ensures Min(z, MinZoom) <= r <= Max(z, MaxZoom)
    decreases |presses|
  {
    if presses == [] then z else PressZoomButtons(PressZoom(z, presses[0]), presses[1..])
  }

  lemma PressZoomStaysInRange(z: real, zoomIn: bool)
    requires ZoomInRange(z)
    ensures ZoomInRange(PressZoom(z, zoomIn))
  {
  }

  /** Starting from the initial zoom of 1, any sequence of button presses keeps the zoom
      within [0.2, 5]. */
  lemma {:induction false} ZoomStaysInRange(z: real, presses: seq<bool>)
    requires ZoomInRange(z)
    ensures ZoomInRange(PressZoomButtons(z, presses))
    decreases |presses|
  {
    if presses != [] {
      PressZoomStaysInRange(z, presses[0]);
      ZoomStaysInRange(PressZoom(z, presses[0]), presses[1..]);
    }
  }

  lemma InitialZoomStaysInRange(presses: seq<bool>)
    ensures ZoomInRange(PressZoomButtons(1.0, presses))
  {
    ZoomStaysInRange(1.0, presses);
  }

  /** The measurement labels `renderShape` draws, with every length given by its square
      (the radicand of `Math.sqrt` times the squared factor); rectangle sides are plain
      absolute differences and are given as they are. */
  datatype Labels =
    | LineLabel(lengthSq: real)
    | RectLabels(width: real, height: real)
    | EdgeLabels(lengthsSq: seq<real>)
    | NoLabels

  /** A stored point as drawn on screen. */
  function OnScreen(p: Point, zoom: real): Point
  {
    Point(p.x * zoom, p.y * zoom)
  }

  /** Squared screen distance times `(scale / zoom)` squared: the square of a label. */
  function ScreenLengthSq(a: Point, b: Point, zoom: real, scale: real): (r: real)
    requires zoom != 0.0
    ensures r >= 0.0
  {
    var f := scale / zoom;
    SquareNonNegative(f);
    NonNegativeProduct(SqDist(OnScreen(a, zoom), OnScreen(b, zoom)), f * f);
    SqDist(OnScreen(a, zoom), OnScreen(b, zoom)) * (f * f)
  }

  /** Polygon edge `idx` runs from point `idx` to point `(idx + 1) % n`. */
  function EdgeLengthsSq(pts: seq<Point>, zoom: real, scale: real): (r: seq<real>)
    requires zoom != 0.0 && |pts| > 0
    ensures |r| == |pts|
  {
    seq(|pts|, i requires 0 <= i < |pts| => ScreenLengthSq(pts[i], pts[Next(i, |pts|)], zoom, scale))
  }

  /** `renderShape`: a line of two points gets its length, a rectangle of two corners its
      width and height, a polygon of three or more points one label per edge, and anything
      else nothing. */
  function ShapeLabels(shape: Shape, zoom: real, scale: real): (r: Labels)
    requires zoom != 0.0
    ensures r.LineLabel? <==> shape.kind == Line && |shape.points| == 2
    ensures r.RectLabels? <==> shape.kind == Rect && |shape.points| == 2
    ensures r.EdgeLabels? <==> shape.kind == Polygon && |shape.points| >= 3
    ensures r.LineLabel? ==> r.lengthSq >= 0.0
    ensures r.EdgeLabels? ==> |r.lengthsSq| == |shape.points|
  {
    if shape.kind == Line && |shape.points| == 2 then
      LineLabel(ScreenLengthSq(shape.points[0], shape.points[1], zoom, scale))
    else if shape.kind == Rect && |shape.points| == 2 then
      var p1, p2 := shape.points[0], shape.points[1];
      RectLabels(Abs(p2.x - p1.x) * scale, Abs(p2.y - p1.y) * scale)
    else if shape.kind == Polygon && |shape.points| >= 3 then
      EdgeLabels(EdgeLengthsSq(shape.points, zoom, scale))
    else NoLabels
  }

  lemma FactorCancels(z: real, scale: real)
    requires z != 0.0
    ensures (scale / z) * (scale / z) * (z * z) == scale * scale
  {
    var f := scale / z;
    assert f * z == scale;
    assert f * f * (z * z) == (f * z) * (f * z);
  }

  /** Drawing at any zoom gives the same length: the squared screen distance times
      `(scale / zoom)` squared is the squared stored distance times `scale` squared. */
  lemma ScreenLengthIsZoomFree(a: Point, b: Point, zoom: real, scale: real)
    requires zoom != 0.0
    ensures ScreenLengthSq(a, b, zoom, scale) == SqDist(a, b) * (scale * scale)
  {
    SqDistScaled(a, b, zoom);
    FactorCancels(zoom, scale);
    var f := scale / zoom;
    var d := SqDist(a, b);
    assert ScreenLengthSq(a, b, zoom, scale) == (zoom * zoom * d) * (f * f);
    assert (zoom * zoom * d) * (f * f) == d * ((f * f) * (zoom * zoom));
  }

  /** A line label is the stored length times the calibration factor, whatever the zoom. */
  lemma LineLabelIsScaledLength(a: Point, b: Point, zoom: real, scale: real)
    requires zoom != 0.0
    ensures ShapeLabels(Shape(Line, [a, b]), zoom, scale) == LineLabel(SqDist(a, b) * (scale * scale))
  {
    ScreenLengthIsZoomFree(a, b, zoom, scale);
  }

  /** The rectangle's width and height do not depend on which corner was clicked first. */
  lemma RectLabelsCornerOrder(p1: Point, p2: Point, zoom: real, scale: real)
    requires zoom != 0.0
    ensures ShapeLabels(Shape(Rect, [p1, p2]), zoom, scale) == ShapeLabels(Shape(Rect, [p2, p1]), zoom, scale)
    ensures ShapeLabels(Shape(Rect, [p1, p2]), zoom, scale)
      == RectLabels(Abs(p2.x - p1.x) * scale, Abs(p2.y - p1.y) * scale)
  {
    assert Abs(p2.x - p1.x) == Abs(p1.x - p2.x);
    assert Abs(p2.y - p1.y) == Abs(p1.y - p2.y);
  }

  /** Every polygon edge label is the stored length of the edge from point `i` to the next
      point, the last edge closing back to the first. */
  lemma PolygonEdgeLabels(pts: seq<Point>, zoom: real, scale: real, i: nat)
    requires zoom != 0.0 && |pts| >= 3 && i < |pts|
    ensures ShapeLabels(Shape(Polygon, pts), zoom, scale).EdgeLabels?
    ensures var edges := ShapeLabels(Shape(Polygon, pts), zoom, scale).lengthsSq;
      |edges| == |pts|
      && edges[i] == SqDist(pts[i], pts[if i + 1 < |pts| then i + 1 else 0]) * (scale * scale)
  {
    ScreenLengthIsZoomFree(pts[i], pts[Next(i, |pts|)], zoom, scale);
  }

  /** A polygon closed on its third click has two points: it is committed but gets no labels. */
  lemma TwoPointPolygonHasNoLabels(first: Point, second: Point, zoom: real, scale: real)
    requires zoom != 0.0
    ensures ShapeLabels(Shape(Polygon, [first, second]), zoom, scale) == NoLabels
    ensures Click(Polygon, Draft([], [first, second]), first).shapes == [Shape(Polygon, [first, second])]
  {
    assert IsClosing([first, second] + [first]);
  }

  /** The session state of the modal. */
  class MeasurementSession {
    var tool: Tool
    var shapes: seq<Shape>
    var current: seq<Point>
    var zoom: real
    var imageLoaded: bool
    /** The calibration factor (metres per image unit) the modal receives. */
    const scale: real

    ghost predicate Valid()
      reads this
    {
      ZoomInRange(zoom) && WellFormedShapes(shapes)
    }

    constructor(scale: real)
      ensures Valid()
      ensures tool == Line && shapes == [] && current == [] && zoom == 1.0 && !imageLoaded
      ensures this.scale == scale
    {
      tool := Line;
      shapes := [];
      current := [];
      zoom := 1.0;
      imageLoaded := false;
      this.scale := scale;
    }

    /** The image's `onload`. */
    method ImageLoaded()
      modifies this`imageLoaded
      ensures imageLoaded
    {
      imageLoaded := true;
    }

    /** `handleStageClick` / `handleStagePointer` (the two are identical): ignored before the
      image has loaded or without a pointer position; otherwise one click at the stored point. */
    method PointerDown(pointer: Option<Point>)
      requires Valid()
      modifies this`shapes, this`current
      ensures Valid()
      ensures !imageLoaded || pointer.None? ==> shapes == old(shapes) && current == old(current)
      ensures imageLoaded && pointer.Some? ==>
        Draft(shapes, current) == Click(tool, Draft(old(shapes), old(current)), StoredPoint(pointer.value, zoom))
    {
      if !imageLoaded || pointer.None? {
        return;
      }
      var p := StoredPoint(pointer.value, zoom);
      ClickKeepsShapesWellFormed(tool, Draft(shapes, current), p);
      var next := Click(tool, Draft(shapes, current), p);
      shapes := next.shapes;
      current := next.current;
    }

    /** A tool button: only the tool changes, the buffer is kept. */
    method SetTool(t: Tool)
      modifies this`tool
      ensures tool == t
    {
      tool := t;
    }

    /** `resetAll`. */
    method ResetAll()
      requires Valid()
      modifies this`shapes, this`current
      ensures Valid()
      ensures shapes == [] && current == []
    {
      shapes := [];
      current := [];
    }

    /** `removeByType`. */
    method RemoveByType(kind: Tool)
      requires Valid()
      modifies this`shapes
      ensures Valid()
      ensures shapes == WithoutKind(old(shapes), kind)
    {
      shapes := WithoutKind(shapes, kind);
    }

    method ZoomIn()
      requires Valid()
      modifies this`zoom
      ensures Valid()
      ensures zoom == ZoomInStep(old(zoom))
    {
      zoom := ZoomInStep(zoom);
    }

    method ZoomOut()
      requires Valid()
      modifies this`zoom
      ensures Valid()
      ensures zoom == ZoomOutStep(old(zoom))
    {
      zoom := ZoomOutStep(zoom);
    }

    /** The labels of committed shape `i` at the current zoom: a committed line is labelled
      with its stored length times the calibration factor whatever the zoom, a rectangle
      always gets its sides, and a polygon gets its edges unless it has only two points. */
    function Labels(i: nat): (r: Labels)
      reads this
      requires Valid() && i < |shapes|
      ensures shapes[i].kind == Line ==>
        r == LineLabel(SqDist(shapes[i].points[0], shapes[i].points[1]) * (scale * scale))
      ensures shapes[i].kind == Rect ==> r.RectLabels?
      ensures shapes[i].kind == Polygon ==> r.EdgeLabels? || (|shapes[i].points| == 2 && r == NoLabels)
    {
      var s := shapes[i];
      if s.kind == Line then
        LineLabelIsScaledLength(s.points[0], s.points[1], zoom, scale);
        assert s == Shape(Line, [s.points[0], s.points[1]]);
        ShapeLabels(s, zoom, scale)
      else
        ShapeLabels(s, zoom, scale)
    }
  }
}
