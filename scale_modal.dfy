/** The calibration modal: two clicked points on the photo and a typed real distance
    give the scale factor `escala = distance / pixelDistance` (metres per image unit)
    that the measurement modal later multiplies every length by. The stage can be
    panned and wheel-zoomed; the points are kept in stage-local coordinates as a flat
    list `[x1, y1, x2, y2]`. */
module ScaleModal {
  import opened Wrappers
  import opened Geometry
  import opened View
  import opened Decimal

  /** At most two points, as four coordinates. */
  const MaxCoordinates: nat := 4

  /** What `calcularEscala` does: nothing (a guard failed), the "invalid distance" alert,
      or a calibration with the parsed distance and the squared pixel distance between
      the two points (the scale is `distance / sqrt(pixelDistanceSq)`). */
  datatype Outcome =
    | Ignored
    | InvalidDistance
    | Calibrated(distance: real, pixelDistanceSq: real)

  /** The typed distance: the first `,` becomes `.`, then `parseFloat`; NaN and values
      that are not positive are rejected. */
  function DistanceInput(text: string): (r: Option<real>)
    ensures r.Some? <==> ParseFloat(ReplaceFirst(text, ',', '.')).Some? && ParseFloat(ReplaceFirst(text, ',', '.')).value > 0.0
    ensures r.Some? ==> r.value > 0.0 && Some(r.value) == ParseFloat(ReplaceFirst(text, ',', '.'))
  {
    match ParseFloat(ReplaceFirst(text, ',', '.'))
    case None => None
    case Some(v) => if v <= 0.0 then None else Some(v)
  }

  /** `(x2 - x1) ** 2 + (y2 - y1) ** 2` over the flat coordinate list. */
  function PixelDistanceSq(points: seq<real>): (d: real)
    requires |points| == 4
    ensures d >= 0.0
    ensures d == 0.0 <==> points[0] == points[2] && points[1] == points[3]
  {
    SqDist(Point(points[0], points[1]), Point(points[2], points[3]))
  }

  /** The pure part of `calcularEscala`: the guard on four coordinates, a non-empty text
      and a loaded image, then the distance validation. */
  function Calibrate(points: seq<real>, text: string, imageLoaded: bool): (r: Outcome)
    ensures r.Ignored? <==> |points| != 4 || text == [] || !imageLoaded
    ensures r.InvalidDistance? <==> |points| == 4 && text != [] && imageLoaded && DistanceInput(text).None?
    ensures r.Calibrated? ==> r.distance > 0.0 && r.pixelDistanceSq >= 0.0
    ensures r.Calibrated? ==> Some(r.distance) == DistanceInput(text) && r.pixelDistanceSq == PixelDistanceSq(points)
  {
    if |points| != 4 || text == [] || !imageLoaded then Ignored
    else match DistanceInput(text)
      case None => InvalidDistance
      case Some(d) => Calibrated(d, PixelDistanceSq(points))
  }

  /** The emitted scale: finite when the two points differ and its square is then
      `distance² / pixelDistance²`; `Infinite` when both points coincide (a division by zero). */
  datatype Escala = Finite(squared: real) | Infinite

  /** `distanciaReal / pixelDistance`, squared: infinite exactly for a zero pixel distance,
      and otherwise the number whose product with the squared pixel distance is the squared
      real distance. */
  function EscalaOf(distance: real, pixelDistanceSq: real): (e: Escala)
    ensures e.Infinite? <==> pixelDistanceSq == 0.0
    ensures e.Finite? ==> e.squared * pixelDistanceSq == distance * distance
  {
    if pixelDistanceSq == 0.0 then Infinite
    else
      var e := Finite(distance * (distance / pixelDistanceSq));
      assert distance * (distance / pixelDistanceSq) * pixelDistanceSq == distance * ((distance / pixelDistanceSq) * pixelDistanceSq);
      e
  }

  /** A calibration from two distinct clicks gives a positive scale whose square times the
      squared pixel distance is the squared real distance. */
  lemma CalibratedScale(points: seq<real>, text: string, imageLoaded: bool, d: real, p: real)
    requires Calibrate(points, text, imageLoaded) == Calibrated(d, p)
    requires points[0] != points[2] || points[1] != points[3]
    ensures var e := EscalaOf(d, p); e.Finite? && e.squared > 0.0 && e.squared * p == d * d
  {
    EscalaPositive(d, p);
  }

  lemma EscalaPositive(d: real, p: real)
    requires d > 0.0 && p > 0.0
    ensures var e := EscalaOf(d, p); e.Finite? && e.squared > 0.0 && e.squared * p == d * d
  {
    PositiveQuotient(d, p);
    PositiveProduct(d, d / p);
    assert d * (d / p) * p == d * ((d / p) * p);
  }

  /** Two clicks on the same spot calibrate to an infinite scale. */
  lemma SamePointsInfiniteScale(points: seq<real>, text: string, imageLoaded: bool)
    requires Calibrate(points, text, imageLoaded).Calibrated?
    requires points[0] == points[2] && points[1] == points[3]
    ensures var o := Calibrate(points, text, imageLoaded); EscalaOf(o.distance, o.pixelDistanceSq) == Infinite
  {
  }

  /** A comma decimal separator is accepted: "2,5" is 2.5 metres. */
  lemma CommaDecimalAccepted()
    ensures DistanceInput("2,5") == Some(2.5)
  {
    assert IndexOf("2,5", ',') == 1 by {
      assert "2,5"[1..] == ",5";
    }
    assert ReplaceFirst("2,5", ',', '.') == "2.5";
    ReadsDecimalFraction();
  }

  /** A negative distance is rejected. */
  lemma NegativeDistanceRejected()
    ensures DistanceInput("-5") == None
  {
    assert IndexOf("-5", ',') == 2 by {
      assert "-5"[1..] == "5" && "5"[1..] == [];
    }
    assert ReplaceFirst("-5", ',', '.') == "-5";
    ReadsNegativeNumber();
  }

  /** Letters are rejected. */
  lemma LettersRejected()
    ensures DistanceInput("abc") == None
  {
    assert IndexOf("abc", ',') == 3 by {
      assert "abc"[1..] == "bc" && "bc"[1..] == "c" && "c"[1..] == [];
    }
    assert ReplaceFirst("abc", ',', '.') == "abc";
    RejectsLetters();
  }

  /** Any text whose number starts with a minus sign is rejected. */
  lemma MinusSignRejected(text: string)
    requires var t := TrimStart(ReplaceFirst(text, ',', '.')); t != [] && t[0] == '-'
    ensures DistanceInput(text) == None
  {
    NegativeSignNotPositive(ReplaceFirst(text, ',', '.'));
  }

  /** Points are recorded in stage-local coordinates: a spot of the photo clicked under any
      pan and zoom is recorded as the same point. */
  lemma StoredPointIndependentOfView(q: Point, t: Transform, u: Transform)
    requires t.scale != 0.0 && u.scale != 0.0
    ensures ToStage(FromStage(q, t), t) == ToStage(FromStage(q, u), u) == q
  {
    ToStageFromStage(q, t);
    ToStageFromStage(q, u);
  }

  /** A one-slot write into a JavaScript array: a write past the end lengthens the array and
      leaves the slots in between unset (`None`). */
  function StoreAt(a: seq<Option<real>>, k: nat, v: real): (r: seq<Option<real>>)
    ensures |r| == if k < |a| then |a| else k + 1
    ensures r[k] == Some(v)
    ensures forall j :: 0 <= j < |a| && j != k ==> r[j] == a[j]
    ensures forall j :: |a| <= j < k ==> r[j] == None
  {
    if k < |a| then a[k := Some(v)] else a + seq(k - |a|, _ => None) + [Some(v)]
  }

  /** The coordinate list as an array whose every slot is set. */
  function Slots(points: seq<real>): (r: seq<Option<real>>)
    ensures |r| == |points|
    ensures forall i :: 0 <= i < |points| ==> r[i] == Some(points[i])
  {
    seq(|points|, i requires 0 <= i < |points| => Some(points[i]))
  }

  /** A circle drag as the modal is written: `points.map((_, i) => <Circle .../>)` draws a
      circle for every coordinate, not every point, and circle `i` writes coordinates `2i`
      and `2i + 1`, past the end of the list for the circles beyond the stored points. */
  function DragCircleAsWritten(points: seq<Option<real>>, i: nat, pos: Point): (r: seq<Option<real>>)
    requires i < |points|
    ensures |r| == if 2 * i + 1 < |points| then |points| else 2 * i + 2
    ensures r[2 * i] == Some(pos.x) && r[2 * i + 1] == Some(pos.y)
    ensures forall j :: 0 <= j < |points| && j != 2 * i && j != 2 * i + 1 ==> r[j] == points[j]
  {
    StoreAt(StoreAt(points, 2 * i, pos.x), 2 * i + 1, pos.y)
  }

  /** With both points stored there are four circles, and dragging the third or the fourth
      lengthens the list past four coordinates: the third appends a point, after which every
      calibration is ignored; the fourth leaves two unset slots. */
  lemma ExtraCircleDragBlocksCalibration(points: seq<real>, pos: Point, text: string, imageLoaded: bool)
    requires |points| == MaxCoordinates
    ensures DragCircleAsWritten(Slots(points), 2, pos) == Slots(points + [pos.x, pos.y])
    ensures Calibrate(points + [pos.x, pos.y], text, imageLoaded) == Ignored
    ensures var r := DragCircleAsWritten(Slots(points), 3, pos); |r| == 8 && r[4] == None && r[5] == None
  {
    var r := DragCircleAsWritten(Slots(points), 2, pos);
    var w := Slots(points + [pos.x, pos.y]);
    assert |r| == |w| == 6;
    forall j | 0 <= j < 6
      ensures r[j] == w[j]
    {
      if j < 4 {
        assert r[j] == Slots(points)[j];
      }
    }
  }

  /** The state of the calibration modal. */
  class CalibrationSession {
    var points: seq<real>
    var realDistance: string
    var scale: real
    var position: Point
    var imageLoaded: bool

    ghost predicate Valid()
      reads this
    {
      |points| <= MaxCoordinates && |points| % 2 == 0 && scale > 0.0
    }

    function View(): Transform
      reads this
    {
      Transform(scale, position)
    }

    constructor()
      ensures Valid()
      ensures points == [] && realDistance == [] && scale == 1.0 && position == Point(0.0, 0.0)
      ensures !imageLoaded
    {
      points := [];
      realDistance := [];
      scale := 1.0;
      position := Point(0.0, 0.0);
      imageLoaded := false;
    }

    /** The image's `onload`. */
    method ImageLoaded()
      modifies this`imageLoaded
      ensures imageLoaded
    {
      imageLoaded := true;
    }

    /** The text field's `onChange`. */
    method SetRealDistance(text: string)
      modifies this`realDistance
      ensures realDistance == text
    {
      realDistance := text;
    }

    /** `handleClick`: ignored without a pointer position or once two points are stored;
        otherwise the stage-local point under the pointer is appended as two coordinates. */
    method HandleClick(pointer: Option<Point>)
      requires Valid()
      modifies this`points
      ensures Valid()
      ensures pointer.None? || |old(points)| >= MaxCoordinates ==> points == old(points)
      ensures pointer.Some? && |old(points)| < MaxCoordinates ==>
        var q := ToStage(pointer.value, View());
        points == old(points) + [q.x, q.y] && FromStage(q, View()) == pointer.value
    {
      if pointer.None? || |points| >= MaxCoordinates {
        return;
      }
      var q := ToStage(pointer.value, View());
      points := points + [q.x, q.y];
    }

    /** `calcularEscala` without the canvas export: reports what it does and changes nothing;
        its points and text stay as they are even when the distance is rejected. */
    method CalcularEscala() returns (o: Outcome)
      ensures o == Calibrate(points, realDistance, imageLoaded)
    {
      if |points| != 4 || realDistance == [] || !imageLoaded {
        return Ignored;
      }
      var d := DistanceInput(realDistance);
      if d.None? {
        return InvalidDistance;
      }
      o := Calibrated(d.value, PixelDistanceSq(points));
    }

    /** `resetPuntos`, also run when the modal opens. */
    method ResetPuntos()
      requires Valid()
      modifies this`points, this`realDistance
      ensures Valid()
      ensures points == [] && realDistance == []
    {
      points := [];
      realDistance := [];
    }

    /** `handleClose`: clears the points and the text and restores the initial view. */
    method HandleClose()
      requires Valid()
      modifies this`points, this`realDistance, this`scale, this`position
      ensures Valid()
      ensures points == [] && realDistance == [] && scale == 1.0 && position == Point(0.0, 0.0)
    {
      ResetPuntos();
      scale := 1.0;
      position := Point(0.0, 0.0);
    }

    /** `handleWheel`: ignored without a pointer position; otherwise one cursor-anchored
        zoom step. The stage-local point under the pointer stays where it was. */
    method HandleWheel(pointer: Option<Point>, deltaY: real)
      requires Valid()
      modifies this`scale, this`position
      ensures Valid()
      ensures pointer.None? ==> View() == old(View())
      ensures pointer.Some? ==> View() == WheelZoom(old(View()), pointer.value, deltaY)
      ensures pointer.Some? ==> ToStage(pointer.value, View()) == ToStage(pointer.value, old(View()))
    {
      if pointer.None? {
        return;
      }
      var t := WheelZoom(View(), pointer.value, deltaY);
      scale := t.scale;
      position := t.position;
    }

    /** `handleDragEnd`: the position becomes that of the node whose drag ended: the
        stage's own, or a point circle's, whose `dragend` bubbles up to the stage. */
    method HandleDragEnd(newPosition: Point)
      requires Valid()
      modifies this`position
      ensures Valid()
      ensures position == newPosition
    {
      position := newPosition;
    }

    /** Dragging the circle of point `i` replaces coordinates `2i` and `2i+1` only: the
        intended behaviour with one circle per stored point (see `DragCircleAsWritten`). */
    method DragCircle(i: nat, pos: Point)
      requires Valid() && 2 * i + 1 < |points|
      modifies this`points
      ensures Valid()
      ensures |points| == |old(points)|
      ensures points[2 * i] == pos.x && points[2 * i + 1] == pos.y
      ensures forall j :: 0 <= j < |points| && j != 2 * i && j != 2 * i + 1 ==> points[j] == old(points)[j]
    {
      points := points[2 * i := pos.x][2 * i + 1 := pos.y];
    }
  }
}
