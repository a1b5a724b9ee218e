/** The pan/zoom transform of a Konva stage that the calibration modal and the
    mobile polygon cropper keep in their `scale` and `position` state, with the
    cursor-anchored wheel zoom both of them implement. */
module View {
  import opened Geometry

  /** Stage scale (the same on both axes) and stage position (the pan offset). */
  datatype Transform = Transform(scale: real, position: Point)

  /** `const scaleBy = 1.05` of both wheel handlers. */
  const WheelFactor: real := 1.05

  /** Screen position of a stage-local point: Konva draws `q` at `q * scale + position`. */
  function FromStage(q: Point, t: Transform): Point
  {
    Point(q.x * t.scale + t.position.x, q.y * t.scale + t.position.y)
  }

  /** `(pointer - position) / scale`, component-wise: the stage-local point under the pointer. */
  function ToStage(pointer: Point, t: Transform): (q: Point)
    requires t.scale != 0.0
    ensures FromStage(q, t) == pointer
  {
    Point((pointer.x - t.position.x) / t.scale, (pointer.y - t.position.y) / t.scale)
  }

  /** Mapping a stage-local point to the screen and back gives the point again. */
  lemma ToStageFromStage(q: Point, t: Transform)
    requires t.scale != 0.0
    ensures ToStage(FromStage(q, t), t) == q
  {
    var p := FromStage(q, t);
    assert (p.x - t.position.x) / t.scale == (q.x * t.scale) / t.scale == q.x;
    assert (p.y - t.position.y) / t.scale == (q.y * t.scale) / t.scale == q.y;
  }

  /** The new stage scale of one wheel step: `deltaY > 0` zooms out (divide), anything else
      zooms in (multiply). */
  function WheelScale(scale: real, deltaY: real): (r: real)
    ensures scale > 0.0 ==> r > 0.0
    ensures if deltaY > 0.0 then r * WheelFactor == scale else r == scale * WheelFactor
  {
    if deltaY > 0.0 then scale / WheelFactor else scale * WheelFactor
  }

  /** One wheel step: the scale changes by the wheel factor and the new position
      `pointer - mousePointTo * newScale` keeps the stage-local point under the
      pointer where it was. */
  function WheelZoom(t: Transform, pointer: Point, deltaY: real): (r: Transform)
    requires t.scale > 0.0
    ensures r.scale > 0.0 && r.scale == WheelScale(t.scale, deltaY)
    ensures ToStage(pointer, r) == ToStage(pointer, t)
  {
    var newScale := WheelScale(t.scale, deltaY);
    var anchor := ToStage(pointer, t);
    var r := Transform(newScale, Point(pointer.x - anchor.x * newScale, pointer.y - anchor.y * newScale));
    assert (pointer.x - r.position.x) / newScale == (anchor.x * newScale) / newScale == anchor.x;
    assert (pointer.y - r.position.y) / newScale == (anchor.y * newScale) / newScale == anchor.y;
    r
  }

  /** A transform is fixed by its scale and by the stage-local point under one screen point. */
  lemma TransformDeterminedByAnchor(t: Transform, u: Transform, pointer: Point)
    requires t.scale > 0.0 && t.scale == u.scale
    requires ToStage(pointer, t) == ToStage(pointer, u)
    ensures t == u
  {
    var q := ToStage(pointer, t);
    assert FromStage(q, t) == pointer == FromStage(q, u);
  }

  /** With the pointer held still, one step in followed by one step out (or the other way
      round) restores scale and position exactly. */
  lemma {:induction false} WheelRoundTrip(t: Transform, pointer: Point, d1: real, d2: real)
    requires t.scale > 0.0
    requires (d1 <= 0.0 && d2 > 0.0) || (d1 > 0.0 && d2 <= 0.0)
    ensures WheelZoom(WheelZoom(t, pointer, d1), pointer, d2) == t
  {
    var u := WheelZoom(WheelZoom(t, pointer, d1), pointer, d2);
    var mid := WheelScale(t.scale, d1);
    if d1 <= 0.0 {
      assert mid == t.scale * WheelFactor;
      assert u.scale * WheelFactor == mid;
    } else {
      assert mid * WheelFactor == t.scale;
      assert u.scale == mid * WheelFactor;
    }
    TransformDeterminedByAnchor(u, t, pointer);
  }
}
