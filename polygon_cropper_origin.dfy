/** The desktop polygon cropper: the photo is shown on a stage of its own size, or on a
    fixed 550 x 550 stage when it is small, and collects the raw stage positions of the
    clicks as the vertices of an outline until it is closed; the crop rescales the
    outline from stage to natural image size. */
module PolygonCropperOrigin {
  import opened Wrappers
  import opened Geometry

  const MinVertices: nat := 3

  /** Images narrower or lower than this are shown on the compact stage. */
  const SmallLimit: real := 350.0

  /** The side of the compact, square stage. */
  const CompactSide: real := 550.0

  /** The `onload` rule: an image is small when either side is under the limit. */
  predicate IsSmall(img: Picture)
  {
    img.width < SmallLimit || img.height < SmallLimit
  }

  /** The stage the image is drawn on (and stretched to): the compact square for a small
      image, the image's own size otherwise. */
  function StageSize(img: Picture): (r: (real, real))
    ensures IsSmall(img) ==> r == (CompactSide, CompactSide)
    ensures !IsSmall(img) ==> r == (img.width, img.height)
  {
    if IsSmall(img) then (CompactSide, CompactSide) else (img.width, img.height)
  }

  /** Whichever branch renders it, the stage is at least the small-image limit on both sides. */
  lemma StageNeverSmall(img: Picture)
    ensures StageSize(img).0 >= SmallLimit && StageSize(img).1 >= SmallLimit
  {
  }

  /** What `cropImage` clips the raster to: nothing without an image or with fewer than
      three vertices (the stage is mounted whenever the image is), otherwise every vertex
      rescaled from stage size to natural size, in order. */
  function CropOutline(image: Option<Picture>, points: seq<Point>): (r: Option<seq<Point>>)
    requires image.Some? ==> ValidPicture(image.value)
    ensures r.None? <==> image.None? || |points| < MinVertices
    ensures r.Some? ==> |r.value| == |points|
    ensures r.Some? ==> var st := StageSize(image.value);
      forall i :: 0 <= i < |points| ==>
        r.value[i] == Point(points[i].x * (image.value.naturalWidth / st.0), points[i].y * (image.value.naturalHeight / st.1))
  {
    if image.None? || |points| < MinVertices then None
    else
      var img := image.value;
      var st := StageSize(img);
      Some(ScalePoints(points, img.naturalWidth / st.0, img.naturalHeight / st.1))
  }

  /** The crop maps the stage's far corner onto the raster's far corner, on either stage. */
  lemma CropMapsCornerToCorner(img: Picture, points: seq<Point>, i: nat)
    requires ValidPicture(img) && |points| >= MinVertices && i < |points|
    requires points[i] == Point(StageSize(img).0, StageSize(img).1)
    ensures CropOutline(Some(img), points).value[i] == Point(img.naturalWidth, img.naturalHeight)
  {
    var st := StageSize(img);
    assert st.0 * (img.naturalWidth / st.0) == img.naturalWidth;
    assert st.1 * (img.naturalHeight / st.1) == img.naturalHeight;
  }

  /** The crop loses nothing: rescaling its outline back to stage size gives the vertices. */
  lemma CropOutlineInvertible(img: Picture, points: seq<Point>)
    requires ValidPicture(img) && |points| >= MinVertices
    ensures var st := StageSize(img);
      ScalePoints(CropOutline(Some(img), points).value, st.0 / img.naturalWidth, st.1 / img.naturalHeight) == points
  {
    var st := StageSize(img);
    var sx, sy := img.naturalWidth / st.0, img.naturalHeight / st.1;
    PositiveQuotient(img.naturalWidth, st.0);
    PositiveQuotient(img.naturalHeight, st.1);
    assert 1.0 / sx == st.0 / img.naturalWidth;
    assert 1.0 / sy == st.1 / img.naturalHeight;
    ScalePointsInverse(points, sx, sy);
  }

  /** The state of `PolygonCropperOrigin`. */
  class OriginCropper {
    var image: Option<Picture>
    var isSmall: bool
    var points: seq<Point>
    var isComplete: bool

    /** `isSmall` follows the loaded image, and a closed outline has at least three vertices. */
    ghost predicate Valid()
      reads this
    {
      (image.Some? ==> ValidPicture(image.value) && isSmall == IsSmall(image.value)) &&
      (image.None? ==> !isSmall) &&
      (isComplete ==> |points| >= MinVertices)
    }

    constructor()
      ensures Valid()
      ensures image == None && !isSmall && points == [] && !isComplete
    {
      image := None;
      isSmall := false;
      points := [];
      isComplete := false;
    }

    /** The image's `onload`: the image and the size rule are recorded together. */
    method ImageLoaded(img: Picture)
      requires Valid() && ValidPicture(img)
      modifies this`image, this`isSmall
      ensures Valid()
      ensures image == Some(img) && isSmall == IsSmall(img)
    {
      image := Some(img);
      isSmall := IsSmall(img);
    }

    /** `handleStagePointerDown`: ignored once the outline is closed or without a pointer
        position; otherwise the raw stage position becomes the next vertex. */
    method PointerDown(pointer: Option<Point>)
      requires Valid()
      modifies this`points
      ensures Valid()
      ensures isComplete || pointer.None? ==> points == old(points)
      ensures !isComplete && pointer.Some? ==> points == old(points) + [pointer.value]
    {
      if isComplete {
        return;
      }
      if pointer.Some? {
        points := points + [pointer.value];
      }
    }

    /** `completePolygon`: closes the outline only when it has at least three vertices. */
    method CompletePolygon()
      requires Valid()
      modifies this`isComplete
      ensures Valid()
      ensures isComplete == (old(isComplete) || |points| >= MinVertices)
    {
      if |points| >= MinVertices {
        isComplete := true;
      }
    }

    /** `resetPolygon`: no vertices and an open outline. */
    method ResetPolygon()
      requires Valid()
      modifies this`points, this`isComplete
      ensures Valid()
      ensures points == [] && !isComplete
    {
      points := [];
      isComplete := false;
    }

    /** `handleDragMove(index, pos)`: a copy of the vertices with only `index` replaced. It is
        called by the vertex circles, which are draggable only once the outline is closed. */
    method HandleDragMove(index: nat, pos: Point)
      requires Valid() && isComplete && index < |points|
      modifies this`points
      ensures Valid()
      ensures |points| == |old(points)| && points[index] == pos
      ensures forall j :: 0 <= j < |points| && j != index ==> points[j] == old(points)[j]
    {
      var updated := points;
      updated := updated[index := pos];
      points := updated;
    }
  }
}
