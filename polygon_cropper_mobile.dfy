/** The mobile polygon cropper: the photo is fitted and centred in a viewport, can be
    panned and wheel-zoomed, and collects the vertices of an outline in stage-local
    (image) coordinates until the outline is closed; the crop rescales the outline from
    displayed to natural image size. */
module PolygonCropperMobile {
  import opened Wrappers
  import opened Geometry
  import opened View

  /** The fewest vertices an outline may be closed with. */
  const MinVertices: nat := 3

  /** `w * s < w * u` for a positive `w` and `s < u`. */
  lemma ScaleUpStrict(w: real, s: real, u: real)
    requires w > 0.0 && s < u
    ensures w * s < w * u
  {
    PositiveProduct(w, u - s);
    assert w * (u - s) == w * u - w * s;
  }

  lemma ScaleUp(w: real, s: real, u: real)
    requires w > 0.0 && s <= u
    ensures w * s <= w * u
  {
    if s < u {
      ScaleUpStrict(w, s, u);
    }
  }

  lemma Cancel(w: real, v: real)
    requires w > 0.0
    ensures w * (v / w) == v
  {
  }

  /** The initial view once the image has loaded: the larger scale at which the whole
      image fits the viewport, and the offset that centres it. */
  function Fit(vw: real, vh: real, img: Picture): (t: Transform)
    requires vw > 0.0 && vh > 0.0 && ValidPicture(img)
    ensures t.scale > 0.0
  {
    PositiveQuotient(vw, img.width);
    PositiveQuotient(vh, img.height);
    var s := Min(vw / img.width, vh / img.height);
    Transform(s, Point((vw - img.width * s) / 2.0, (vh - img.height * s) / 2.0))
  }

  /** The fitted image lies inside the viewport and fills it along one axis. */
  lemma FitFillsViewport(vw: real, vh: real, img: Picture)
    requires vw > 0.0 && vh > 0.0 && ValidPicture(img)
    ensures var s := Fit(vw, vh, img).scale;
      img.width * s <= vw && img.height * s <= vh && (img.width * s == vw || img.height * s == vh)
  {
    var s := Fit(vw, vh, img).scale;
    ScaleUp(img.width, s, vw / img.width);
    ScaleUp(img.height, s, vh / img.height);
    Cancel(img.width, vw);
    Cancel(img.height, vh);
  }

  /** No larger scale fits: any larger one overflows the viewport along some axis. */
  lemma FitIsLargest(vw: real, vh: real, img: Picture, u: real)
    requires vw > 0.0 && vh > 0.0 && ValidPicture(img)
    requires u > Fit(vw, vh, img).scale
    ensures img.width * u > vw || img.height * u > vh
  {
    var s := Fit(vw, vh, img).scale;
    Cancel(img.width, vw);
    Cancel(img.height, vh);
    if s == vw / img.width {
      ScaleUpStrict(img.width, s, u);
    } else {
      ScaleUpStrict(img.height, s, u);
    }
  }

  /** The fitted image is centred: the margins on either side are equal and not negative. */
  lemma FitCentred(vw: real, vh: real, img: Picture)
    requires vw > 0.0 && vh > 0.0 && ValidPicture(img)
    ensures var t := Fit(vw, vh, img);
      t.position.x >= 0.0 && t.position.x == vw - (t.position.x + img.width * t.scale) &&
      t.position.y >= 0.0 && t.position.y == vh - (t.position.y + img.height * t.scale)
  {
    FitFillsViewport(vw, vh, img);
  }

  /** What `cropImage` clips the natural-size raster to: nothing without an image or with
      fewer than three vertices, otherwise every vertex rescaled from displayed to natural
      size, in order. */
  function CropOutline(image: Option<Picture>, points: seq<Point>): (r: Option<seq<Point>>)
    requires image.Some? ==> ValidPicture(image.value)
    ensures r.None? <==> image.None? || |points| < MinVertices
    ensures r.Some? ==> |r.value| == |points|
    ensures r.Some? ==> var img := image.value;
      forall i :: 0 <= i < |points| ==>
        r.value[i] == Point(points[i].x * (img.naturalWidth / img.width), points[i].y * (img.naturalHeight / img.height))
  {
    if image.None? || |points| < MinVertices then None
    else
      var img := image.value;
      Some(ScalePoints(points, img.naturalWidth / img.width, img.naturalHeight / img.height))
  }

  /** The crop maps the displayed image's far corner onto the raster's far corner. */
  lemma CropMapsCornerToCorner(img: Picture, points: seq<Point>, i: nat)
    requires ValidPicture(img) && |points| >= MinVertices && i < |points|
    requires points[i] == Point(img.width, img.height)
    ensures CropOutline(Some(img), points).value[i] == Point(img.naturalWidth, img.naturalHeight)
  {
    Cancel(img.width, img.naturalWidth);
    Cancel(img.height, img.naturalHeight);
    assert img.width * (img.naturalWidth / img.width) == img.naturalWidth;
  }

  /** The crop loses nothing: rescaling its outline back to displayed size gives the
      vertices again. */
  lemma CropOutlineInvertible(img: Picture, points: seq<Point>)
    requires ValidPicture(img) && |points| >= MinVertices
    ensures ScalePoints(CropOutline(Some(img), points).value, img.width / img.naturalWidth, img.height / img.naturalHeight) == points
  {
    var sx, sy := img.naturalWidth / img.width, img.naturalHeight / img.height;
    PositiveQuotient(img.naturalWidth, img.width);
    PositiveQuotient(img.naturalHeight, img.height);
    assert 1.0 / sx == img.width / img.naturalWidth;
    assert 1.0 / sy == img.height / img.naturalHeight;
    ScalePointsInverse(points, sx, sy);
  }

  /** The state of `PolygonCropperMobile`. */
  class MobileCropper {
    var image: Option<Picture>
    var points: seq<Point>
    var isComplete: bool
    var scale: real
    var position: Point
    const viewportWidth: real
    const viewportHeight: real

    /** The scale stays positive, and a closed outline has at least three vertices. */
    ghost predicate Valid()
      reads this
    {
      scale > 0.0 && viewportWidth > 0.0 && viewportHeight > 0.0 &&
      (image.Some? ==> ValidPicture(image.value)) &&
      (isComplete ==> |points| >= MinVertices)
    }

    function View(): Transform
      reads this
    {
      Transform(scale, position)
    }

    /** The viewport is 95% of the window's inner width and 70% of its inner height. */
    constructor(innerWidth: real, innerHeight: real)
      requires innerWidth > 0.0 && innerHeight > 0.0
      ensures Valid()
      ensures viewportWidth == innerWidth * 0.95 && viewportHeight == innerHeight * 0.7
      ensures image == None && points == [] && !isComplete && scale == 1.0 && position == Point(0.0, 0.0)
    {
      viewportWidth := innerWidth * 0.95;
      viewportHeight := innerHeight * 0.7;
      image := None;
      points := [];
      isComplete := false;
      scale := 1.0;
      position := Point(0.0, 0.0);
    }

    /** The image's `onload`, followed by the effect that fits and centres it. */
    method ImageLoaded(img: Picture)
      requires Valid() && ValidPicture(img)
      modifies this`image, this`scale, this`position
      ensures Valid()
      ensures image == Some(img) && View() == Fit(viewportWidth, viewportHeight, img)
    {
      image := Some(img);
      var t := Fit(viewportWidth, viewportHeight, img);
      scale := t.scale;
      position := t.position;
    }

    /** `handleStagePointerDown`: ignored once the outline is closed or before the stage is
        mounted (it is mounted with the image); otherwise the stage-local point under the
        pointer becomes the next vertex. A missing pointer makes the handler fail before
        any change. */
    method PointerDown(pointer: Option<Point>)
      requires Valid()
      modifies this`points
      ensures Valid()
      ensures isComplete || image.None? || pointer.None? ==> points == old(points)
      ensures !isComplete && image.Some? && pointer.Some? ==>
        var q := ToStage(pointer.value, View());
        points == old(points) + [q] && FromStage(q, View()) == pointer.value
    {
      if isComplete || image.None? || pointer.None? {
        return;
      }
      var q := ToStage(pointer.value, View());
      points := points + [q];
    }

    /** `handleWheel`: one cursor-anchored zoom step; the vertices, kept in stage-local
        coordinates, are untouched. */
    method Wheel(pointer: Option<Point>, deltaY: real)
      requires Valid()
      modifies this`scale, this`position
      ensures Valid()
      ensures pointer.None? ==> View() == old(View())
      ensures pointer.Some? ==> View() == WheelZoom(old(View()), pointer.value, deltaY)
      ensures pointer.Some? ==> ToStage(pointer.value, View()) == ToStage(pointer.value, old(View()))
    {
      if pointer.None? {
        return;
      }
      var t := WheelZoom(View(), pointer.value, deltaY);
      scale := t.scale;
      position := t.position;
    }

    /** `handleDragEnd`: the position becomes that of the node whose drag ended: the
        stage's own, or a vertex circle's, whose `dragend` bubbles up to the stage. */
    method DragEnd(newPosition: Point)
      requires Valid()
      modifies this`position
      ensures Valid()
      ensures position == newPosition
    {
      position := newPosition;
    }

    /** `completePolygon`: closes the outline only when it has at least three vertices. */
    method CompletePolygon()
      requires Valid()
      modifies this`isComplete
      ensures Valid()
      ensures isComplete == (old(isComplete) || |points| >= MinVertices)
    {
      if |points| >= MinVertices {
        isComplete := true;
      }
    }

    /** `resetPolygon`: no vertices and an open outline. */
    method ResetPolygon()
      requires Valid()
      modifies this`points, this`isComplete
      ensures Valid()
      ensures points == [] && !isComplete
    {
      points := [];
      isComplete := false;
    }

    /** A vertex circle's `onDragMove`: the vertex with index `i` follows the drag; an index
        no vertex has changes nothing. The circles are draggable only once the outline is
        closed. */
    method DragVertex(i: nat, pos: Point)
      requires Valid() && isComplete
      modifies this`points
      ensures Valid()
      ensures |points| == |old(points)|
      ensures i < |points| ==> points[i] == pos
      ensures forall j :: 0 <= j < |points| && j != i ==> points[j] == old(points)[j]
    {
      if i < |points| {
        points := points[i := pos];
      }
    }
  }
}
