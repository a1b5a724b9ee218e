# Façade measurement front end: the geometry behind the canvas

This project models the rules behind the canvas handlers of a React/Konva front end
for photos of building façades, and proves properties of them in Dafny. Four
components and one store slice are covered:

- The **measurement modal** (`measurement_modal.dfy`). The user picks a line,
  rectangle or polygon tool. Each click is divided by the button zoom and appended to
  an in-progress buffer. Line and rectangle shapes commit at two points; a polygon
  commits when it is closed near its first point. Labels give lengths in metres from
  the calibration factor.
- The **calibration modal** (`scale_modal.dfy`, with `view.dfy` and `decimal.dfy`).
  Two clicked points are mapped through the stage's pan and zoom. A typed distance
  is validated, its first comma becoming a dot before `parseFloat`. The scale is
  `distance / pixelDistance`. The stage zooms around the cursor.
- The **draw hook** `useDrawTool` (`draw_tool.dfy`): a press/drag/release state
  machine for one shape at a time. The shoelace loop `calculatePolygonArea` is
  modelled as a method with a loop.
- The **polygon croppers**: mobile (`polygon_cropper_mobile.dfy`) and desktop
  (`polygon_cropper_origin.dfy`). Each collects the vertices of an outline until it
  is closed. The outline can be reset and its vertices dragged. The mobile cropper
  fits and centres the photo and zooms around the cursor. The crop rescales the
  outline to the raster's natural size.
- The **request slice** (`back_slice.dfy`): the `results`, `loading` and `error`
  maps, keyed by processing action. Also the rule for when the request form carries
  the scale.

Shared pieces live in two modules. `geometry.dfy` holds points, squared distances
and point rescaling. `view.dfy` holds the stage transform and the cursor-anchored
wheel zoom.

State that the source keeps in React state and changes per event is a Dafny `class`
whose methods state the whole new state. The arithmetic is pure functions with
lemmas. JavaScript numbers are modelled as mathematical reals. A length is stated
through its square, since `Math.sqrt` is not modelled.

In the measurement modal, the tool buttons call `setTool` (MeasurementModal.tsx:296),
which changes only the tool and keeps the in-progress buffer. The model keeps it too.
`MeasurementModal.StaleBufferBlocksCommits` shows what follows: after two or more
buffered polygon points, the line and rectangle tools never commit until the buffer is
cleared, by a reset or by closing a polygon (MeasurementModal.tsx:78-80).

## Model

| member | source | states |
|---|---|---|
| Geometry.SqDist | src/components/Modal/MeasurementModal.tsx:170 | the squared distance is never negative, and it is zero exactly when the two points are equal |
| Geometry.SqDistSymmetric | src/hooks/useDrawTool.ts:38-39 | the squared distance does not depend on which point comes first |
| Geometry.SqDistScaled | src/components/Modal/MeasurementModal.tsx:166-170 | multiplying both points by `k` multiplies the squared distance by `k²` |
| Geometry.ScalePoints | src/components/Recorte/PolygonCropperMobile.tsx:112-115 | the rescaled list has the same length, and each point is the point at the same index with `x` times `sx` and `y` times `sy` |
| Geometry.ScalePointsInverse | src/components/Recorte/PolygonCropperMobile.tsx:109-115 | rescaling by the reciprocal factors gives back the original points |
| Geometry.Next | src/hooks/useDrawTool.ts:77 | `(i + 1) % n` is `i + 1`, except that the last index wraps to 0 |
| View.ToStage | src/components/Modal/ScaleModal.tsx:76-79 | the stage-local point `(pointer - position) / scale` is drawn back exactly under the pointer |
| View.ToStageFromStage | src/components/Modal/ScaleModal.tsx:76-79 | mapping a stage point to the screen and back gives the point again |
| View.WheelScale | src/components/Modal/ScaleModal.tsx:131-133 | `deltaY > 0` divides the scale by 1.05, anything else multiplies it by 1.05; a positive scale stays positive |
| View.WheelZoom | src/components/Modal/ScaleModal.tsx:135-146 | the new scale is one wheel step from the old one, and the stage point under the pointer is the same before and after |
| View.TransformDeterminedByAnchor | src/components/Modal/ScaleModal.tsx:140-146 | two transforms with the same scale and the same stage point under one screen point are equal |
| View.WheelRoundTrip | src/components/Modal/ScaleModal.tsx:131-146 | with the pointer held still, a step in followed by a step out (or the reverse) restores scale and position exactly |
| Decimal.TrimStart | src/components/Modal/ScaleModal.tsx:90 | the result is a suffix of the text, every dropped character is white space, and the result does not start with white space |
| Decimal.DigitRun | src/components/Modal/ScaleModal.tsx:90 | the run is the longest prefix that is all decimal digits |
| Decimal.IndexOf | src/components/Modal/ScaleModal.tsx:90 | the index of the first occurrence, or the length when the character does not occur |
| Decimal.ReplaceFirst | src/components/Modal/ScaleModal.tsx:90 | `replace(",", ".")` keeps the length and changes exactly the first occurrence |
| Decimal.SplitSign | src/components/Modal/ScaleModal.tsx:90 | one leading `+` or `-` is removed, and the sign is negative exactly for `-` |
| Decimal.Exponent | src/components/Modal/ScaleModal.tsx:90 | text that does not start with `e` or `E` followed by more has exponent 0; a negative exponent has a minus right after the mark |
| Decimal.ExponentOfDigits | src/components/Modal/ScaleModal.tsx:90 | `e` or `E` and a digit string, followed by text that does not start with a digit, is the digit string's value |
| Decimal.SignedExponentOfDigits | src/components/Modal/ScaleModal.tsx:90 | with a sign after the mark, a minus negates the digit string's value and a plus keeps it |
| Decimal.Value | src/components/Modal/ScaleModal.tsx:90 | a literal's value has the literal's magnitude as its absolute value; it is at most 0 behind a minus and at least 0 otherwise |
| Decimal.ParseFloat | src/components/Modal/ScaleModal.tsx:90 | the text is a number exactly when a literal is read at its start; the number's absolute value is the literal's magnitude, and it is negative only behind a minus |
| Decimal.ReadMantissa | src/components/Modal/ScaleModal.tsx:90 | a mantissa that is read has digit-only parts with at least one digit |
| Decimal.ReadLiteral | src/components/Modal/ScaleModal.tsx:90 | a literal that is read is made of digit strings |
| Decimal.FixedPoint | src/components/Modal/ScaleModal.tsx:90 | `whole.fraction` is never negative |
| Decimal.Magnitude | src/components/Modal/ScaleModal.tsx:90 | the magnitude, scaled by its power of ten, is never negative |
| Decimal.NegativeSignNotPositive | src/components/Modal/ScaleModal.tsx:90-91 | text whose number starts with `-` is not a number or is at most 0 |
| Decimal.NoDigitNoNumber | src/components/Modal/ScaleModal.tsx:90-91 | text without any digit is not a number (NaN) |
| Decimal.DigitsReadAsNatural | src/components/Modal/ScaleModal.tsx:90 | a plain digit string reads as its decimal value |
| Decimal.FractionReadsAsFixedPoint | src/components/Modal/ScaleModal.tsx:90 | digits, a point and digits read as `whole + fraction / 10^k` |
| Decimal.ReadsDecimalFraction | src/components/Modal/ScaleModal.tsx:90 | "2.5" reads as 2.5 |
| Decimal.ReadsNegativeNumber | src/components/Modal/ScaleModal.tsx:90 | "-5" reads as -5 |
| Decimal.ReadsLeadingNumber | src/components/Modal/ScaleModal.tsx:90 | "12m" reads as 12: text after the number is ignored |
| Decimal.ReadsExponent | src/components/Modal/ScaleModal.tsx:90 | "1e3" reads as 1000: the exponent scales the mantissa |
| Decimal.RejectsLetters | src/components/Modal/ScaleModal.tsx:90-91 | "abc" is not a number |
| Decimal.RejectsEmpty | src/components/Modal/ScaleModal.tsx:90-91 | the empty text is not a number |
| MeasurementModal.StoredPoint | src/components/Modal/MeasurementModal.tsx:55-56 | the stored point times the zoom is the pointer position |
| MeasurementModal.IsClosing | src/components/Modal/MeasurementModal.tsx:71-76 | a closing buffer has at least three points and its last click lies less than `10·sqrt(2)` from its first point (squared: under 200); a click right on the first point of a buffer of two or more closes it |
| MeasurementModal.Click | src/components/Modal/MeasurementModal.tsx:58-85 | the committed shapes stay a prefix and grow by at most one; either the click is buffered, or one shape of the current tool is committed from a prefix of the buffer and the click, and the buffer is cleared |
| MeasurementModal.ClickAppendsOnly | src/components/Modal/MeasurementModal.tsx:58-85 | a click either grows the buffer by exactly the clicked point, or appends one shape behind the unchanged earlier shapes and clears the buffer |
| MeasurementModal.LineRectCommit | src/components/Modal/MeasurementModal.tsx:60-68 | with line or rectangle, a shape is committed iff the buffer held one point; that shape is of the tool with the buffered point and the click, and otherwise the click is buffered |
| MeasurementModal.PolygonCommit | src/components/Modal/MeasurementModal.tsx:70-85 | with polygon, a shape is committed iff the click closes; the polygon is the buffer without the closing click, it has at least two points, and the buffer is cleared |
| MeasurementModal.SecondClickNeverCloses | src/components/Modal/MeasurementModal.tsx:73-76 | the first or second click of a polygon is always buffered, even on the first point |
| MeasurementModal.ClickKeepsShapesWellFormed | src/components/Modal/MeasurementModal.tsx:60-85 | clicks only commit lines and rectangles of two points and polygons of at least two |
| MeasurementModal.StaleBufferBlocksCommits | src/components/Modal/MeasurementModal.tsx:60-68 | with two or more points buffered, any clicks under line or rectangle only grow the buffer and commit nothing |
| MeasurementModal.WithoutKind | src/components/Modal/MeasurementModal.tsx:132-134 | a shape is kept iff it was present and is of another kind; nothing is added |
| MeasurementModal.WithoutKindConcat | src/components/Modal/MeasurementModal.tsx:133 | filtering a concatenation filters each part in place, so the kept shapes keep their order |
| MeasurementModal.WithoutKindIdempotent | src/components/Modal/MeasurementModal.tsx:133 | removing a kind twice is the same as removing it once |
| MeasurementModal.WithoutKindKeepsOthers | src/components/Modal/MeasurementModal.tsx:133 | a list with no shape of the kind is returned unchanged |
| MeasurementModal.ZoomInStep | src/components/Modal/MeasurementModal.tsx:332 | Zoom + gives at most 5 and at most `z + 0.2` |
| MeasurementModal.ZoomOutStep | src/components/Modal/MeasurementModal.tsx:338 | Zoom - gives at least 0.2 and at least `z - 0.2` |
| MeasurementModal.PressZoom | src/components/Modal/MeasurementModal.tsx:330-341 | a press never takes the zoom above the larger of it and 5, nor below the smaller of it and 0.2 |
| MeasurementModal.PressZoomButtons | src/components/Modal/MeasurementModal.tsx:330-341 | from any zoom, a sequence of presses never takes it above the larger of it and 5, nor below the smaller of it and 0.2 |
| MeasurementModal.PressZoomStaysInRange | src/components/Modal/MeasurementModal.tsx:330-341 | one press of either button keeps a zoom in [0.2, 5] in that range |
| MeasurementModal.ZoomStaysInRange | src/components/Modal/MeasurementModal.tsx:330-341 | any sequence of presses keeps the zoom in [0.2, 5] |
| MeasurementModal.InitialZoomStaysInRange | src/components/Modal/MeasurementModal.tsx:40 | from the initial zoom of 1, the zoom stays in [0.2, 5] |
| MeasurementModal.ScreenLengthSq | src/components/Modal/MeasurementModal.tsx:166-170 | the square of a screen distance times `scale / zoom` is never negative |
| MeasurementModal.ShapeLabels | src/components/Modal/MeasurementModal.tsx:165-277 | a line of two points gets a length, a rectangle of two corners a width and height, a polygon of three or more points one label per point, and any other shape none; a length is never negative |
| MeasurementModal.EdgeLengthsSq | src/components/Modal/MeasurementModal.tsx:246-257 | a polygon has one edge label per point |
| MeasurementModal.ScreenLengthIsZoomFree | src/components/Modal/MeasurementModal.tsx:166-170 | the screen distance times `scale / zoom` is the stored distance times `scale`, whatever the zoom (squared) |
| MeasurementModal.LineLabelIsScaledLength | src/components/Modal/MeasurementModal.tsx:168-170 | a line's label is its stored length times the calibration factor (squared) |
| MeasurementModal.RectLabelsCornerOrder | src/components/Modal/MeasurementModal.tsx:196-204 | width and height are `abs(Δx)·scale` and `abs(Δy)·scale`, the same whichever corner came first |
| MeasurementModal.PolygonEdgeLabels | src/components/Modal/MeasurementModal.tsx:240-257 | edge `i` of a polygon of three or more points is the stored length from point `i` to point `(i + 1) mod n`, times the calibration factor (squared) |
| MeasurementModal.TwoPointPolygonHasNoLabels | src/components/Modal/MeasurementModal.tsx:240 | a polygon closed on its third click is committed with two points and gets no labels |
| MeasurementModal.MeasurementSession.constructor | src/components/Modal/MeasurementModal.tsx:37-41 | line tool, no shapes, empty buffer, zoom 1, no image |
| MeasurementModal.MeasurementSession.ImageLoaded | src/components/Modal/MeasurementModal.tsx:46 | the image counts as loaded |
| MeasurementModal.MeasurementSession.PointerDown | src/components/Modal/MeasurementModal.tsx:49-86 | before the image loads or without a pointer, nothing changes; otherwise shapes and buffer are one click at the pointer divided by the zoom; zoom in range and well-formed shapes are kept |
| MeasurementModal.MeasurementSession.SetTool | src/components/Modal/MeasurementModal.tsx:296 | only the tool changes |
| MeasurementModal.MeasurementSession.ResetAll | src/components/Modal/MeasurementModal.tsx:127-130 | shapes and buffer are empty |
| MeasurementModal.MeasurementSession.RemoveByType | src/components/Modal/MeasurementModal.tsx:132-134 | the shapes become the old shapes without the kind |
| MeasurementModal.MeasurementSession.Labels | src/components/Modal/MeasurementModal.tsx:165-277 | a committed line is labelled with its stored length times the calibration factor (squared) whatever the zoom; a rectangle always gets its sides; a polygon gets its edges unless it has only two points, when it gets nothing |
| MeasurementModal.MeasurementSession.ZoomIn | src/components/Modal/MeasurementModal.tsx:332 | the zoom becomes `min(z + 0.2, 5)` |
| MeasurementModal.MeasurementSession.ZoomOut | src/components/Modal/MeasurementModal.tsx:338 | the zoom becomes `max(z - 0.2, 0.2)` |
| ScaleModal.DistanceInput | src/components/Modal/ScaleModal.tsx:90-94 | a distance is accepted iff `parseFloat` of the text with its first comma made a dot is a number greater than 0, and it is that number |
| ScaleModal.PixelDistanceSq | src/components/Modal/ScaleModal.tsx:87-88 | the squared pixel distance is never negative, and it is zero exactly when both clicks are on the same spot |
| ScaleModal.Calibrate | src/components/Modal/ScaleModal.tsx:84-96 | nothing happens unless there are exactly four coordinates, some text and a loaded image; a rejected distance gives the alert; otherwise the calibration carries the accepted distance and the pixel distance |
| ScaleModal.EscalaOf | src/components/Modal/ScaleModal.tsx:96 | the scale is infinite exactly when the pixel distance is zero; otherwise scale² × pixelDistance² = distance² |
| ScaleModal.CalibratedScale | src/components/Modal/ScaleModal.tsx:96 | when the two clicked points differ, the scale is finite and positive, and scale² × pixelDistance² = distance² |
| ScaleModal.EscalaPositive | src/components/Modal/ScaleModal.tsx:96 | a positive distance over a positive pixel distance gives a finite, positive scale whose square times the pixel distance squared is the distance squared |
| ScaleModal.SamePointsInfiniteScale | src/components/Modal/ScaleModal.tsx:87-96 | two clicks on the same spot give an infinite scale (a division by zero) |
| ScaleModal.CommaDecimalAccepted | src/components/Modal/ScaleModal.tsx:90 | "2,5" is accepted as 2.5 |
| ScaleModal.NegativeDistanceRejected | src/components/Modal/ScaleModal.tsx:91 | "-5" is rejected |
| ScaleModal.LettersRejected | src/components/Modal/ScaleModal.tsx:91 | "abc" is rejected (NaN) |
| ScaleModal.MinusSignRejected | src/components/Modal/ScaleModal.tsx:90-91 | any text whose number starts with a minus sign is rejected |
| ScaleModal.StoredPointIndependentOfView | src/components/Modal/ScaleModal.tsx:76-79 | a spot of the photo is stored as the same point whatever the pan and zoom |
| ScaleModal.CalibrationSession.constructor | src/components/Modal/ScaleModal.tsx:28-34 | no points, empty text, scale 1, position (0, 0), no image |
| ScaleModal.CalibrationSession.ImageLoaded | src/components/Modal/ScaleModal.tsx:45-60 | the image counts as loaded |
| ScaleModal.CalibrationSession.SetRealDistance | src/components/Modal/ScaleModal.tsx:255 | the text becomes the typed value |
| ScaleModal.CalibrationSession.HandleClick | src/components/Modal/ScaleModal.tsx:70-82 | without a pointer or with four coordinates, nothing changes; otherwise the stage point under the pointer is appended as two coordinates; clicks never add beyond four coordinates |
| ScaleModal.CalibrationSession.CalcularEscala | src/components/Modal/ScaleModal.tsx:84-96 | reports what `calcularEscala` does and changes nothing, so points and text survive a rejection |
| ScaleModal.CalibrationSession.ResetPuntos | src/components/Modal/ScaleModal.tsx:117-120 | points and text are empty |
| ScaleModal.CalibrationSession.HandleClose | src/components/Modal/ScaleModal.tsx:63-68 | points and text are empty, scale is 1 and position is (0, 0) |
| ScaleModal.CalibrationSession.HandleWheel | src/components/Modal/ScaleModal.tsx:122-147 | without a pointer, nothing changes; otherwise one wheel step that keeps the stage point under the pointer |
| ScaleModal.CalibrationSession.HandleDragEnd | src/components/Modal/ScaleModal.tsx:149-151 | the position becomes the dragged node's position: the stage's own, or a point circle's, whose `dragend` bubbles up to the stage |
| ScaleModal.StoreAt | src/components/Modal/ScaleModal.tsx:239-241 | a write inside the array replaces one slot; a write past its end lengthens it to just past that index, leaving the slots in between unset |
| ScaleModal.DragCircleAsWritten | src/components/Modal/ScaleModal.tsx:230-243 | with one circle per coordinate, a drag of circle `i` sets coordinates `2i` and `2i + 1`, keeps the others, and lengthens the list to `2i + 2` when those lie past its end |
| ScaleModal.ExtraCircleDragBlocksCalibration | src/components/Modal/ScaleModal.tsx:230-243 | with both points stored, dragging the third circle appends a third point, after which the calibration is ignored; dragging the fourth gives eight slots, two of them unset |
| ScaleModal.CalibrationSession.DragCircle | src/components/Modal/ScaleModal.tsx:238-243 | with one circle per stored point, coordinates `2i` and `2i + 1` take the drag position; the length, every other coordinate and the four-coordinate bound are kept |
| DrawToolHook.CrossAntisymmetric | src/hooks/useDrawTool.ts:78-79 | swapping an edge's ends negates its contribution |
| DrawToolHook.PolygonArea | src/hooks/useDrawTool.ts:73-82 | the area is never negative and is plus or minus half the shoelace sum |
| DrawToolHook.CalculatePolygonArea | src/hooks/useDrawTool.ts:73-82 | the loop returns `abs(Σ (x_i·y_j − x_j·y_i)) / 2` over the edges `i → (i + 1) mod n`, which is never negative |
| DrawToolHook.PathSumSnoc | src/hooks/useDrawTool.ts:76-80 | extending an open path by a point adds that last edge's contribution |
| DrawToolHook.ShoelacePrefix | src/hooks/useDrawTool.ts:76-80 | after `k - 1` rounds, the loop's sum is the open path through the first `k` points |
| DrawToolHook.ShoelaceClosed | src/hooks/useDrawTool.ts:76-81 | the full sum is the open path plus the closing edge back to the first point |
| DrawToolHook.PathSumReverse | src/hooks/useDrawTool.ts:76-80 | walking a path backwards negates its sum |
| DrawToolHook.ShoelaceReverse | src/hooks/useDrawTool.ts:76-81 | listing the vertices in reverse negates the shoelace sum |
| DrawToolHook.PolygonAreaReversed | src/hooks/useDrawTool.ts:73-82 | reversing the vertex order gives the same area |
| DrawToolHook.ShoelaceFour | src/hooks/useDrawTool.ts:76-80 | for four points, the sum is the contributions of the four edges, the last one closing to the first point |
| DrawToolHook.RectangleShoelace | src/hooks/useDrawTool.ts:76-80 | the corners of an axis-aligned rectangle sum to twice the signed product of its sides |
| DrawToolHook.RectangleAsPolygon | src/hooks/useDrawTool.ts:42-50 | drawn as a polygon, a rectangle's four corners have the rectangle tool's area `abs(Δx)·abs(Δy)` |
| DrawToolHook.UnitSquareArea | src/hooks/useDrawTool.ts:73-82 | the unit square has area 1 |
| DrawToolHook.LineReading | src/hooks/useDrawTool.ts:37-40 | a line release writes a length, never negative (squared) |
| DrawToolHook.LineReadingSymmetric | src/hooks/useDrawTool.ts:38-39 | the line length is the same whichever end the drag started from |
| DrawToolHook.RectangleReadingSymmetric | src/hooks/useDrawTool.ts:42-45 | the rectangle area is the same whichever corner the drag started from, and never negative once scaled |
| DrawToolHook.DrawTool.constructor | src/hooks/useDrawTool.ts:10-14 | line tool, no points, no drag, empty result, and the given scale |
| DrawToolHook.DrawTool.SetTool | src/hooks/useDrawTool.ts:11 | only the tool changes |
| DrawToolHook.DrawTool.StartDrawing | src/hooks/useDrawTool.ts:16-26 | without a pointer, nothing changes; with polygon the pointer is appended; otherwise the points restart at the pointer and a drag begins |
| DrawToolHook.DrawTool.Draw | src/hooks/useDrawTool.ts:28-33 | nothing changes unless a line or rectangle drag is in progress and there is a pointer; then the points are the anchor and the pointer |
| DrawToolHook.DrawTool.EndDrawing | src/hooks/useDrawTool.ts:35-52 | the drag ends; with two points, a line writes `distance × scale` and a rectangle `abs(Δx)·abs(Δy)·scale²`; a polygon of more than two points writes `area × scale²`; otherwise the result is kept |
| DrawToolHook.DrawTool.Reset | src/hooks/useDrawTool.ts:54-58 | no points, an empty result and no drag |
| PolygonCropperMobile.Fit | src/components/Recorte/PolygonCropperMobile.tsx:37-45 | the initial scale is positive |
| PolygonCropperMobile.FitFillsViewport | src/components/Recorte/PolygonCropperMobile.tsx:37-39 | at the fitted scale the image lies inside the viewport and fills it along one axis |
| PolygonCropperMobile.FitIsLargest | src/components/Recorte/PolygonCropperMobile.tsx:37-39 | any larger scale makes the image overflow the viewport along some axis |
| PolygonCropperMobile.FitCentred | src/components/Recorte/PolygonCropperMobile.tsx:41-45 | the fitted image is centred: opposite margins are equal and not negative |
| PolygonCropperMobile.CropOutline | src/components/Recorte/PolygonCropperMobile.tsx:100-115 | no outline without an image or with fewer than three vertices; otherwise it has every vertex, in order, rescaled by natural over displayed size |
| PolygonCropperMobile.CropMapsCornerToCorner | src/components/Recorte/PolygonCropperMobile.tsx:109-115 | a vertex on the displayed image's far corner lands on the raster's far corner |
| PolygonCropperMobile.CropOutlineInvertible | src/components/Recorte/PolygonCropperMobile.tsx:109-115 | rescaling the crop outline back by displayed over natural size gives the vertices |
| PolygonCropperMobile.MobileCropper.constructor | src/components/Recorte/PolygonCropperMobile.tsx:13-22 | the viewport is 95% by 70% of the window; no image, no vertices, open outline, scale 1, position (0, 0) |
| PolygonCropperMobile.MobileCropper.ImageLoaded | src/components/Recorte/PolygonCropperMobile.tsx:30-46 | the image is recorded and the view is the fitted, centred one |
| PolygonCropperMobile.MobileCropper.PointerDown | src/components/Recorte/PolygonCropperMobile.tsx:48-60 | a closed outline, a missing stage or a missing pointer leaves the vertices unchanged; otherwise the stage point under the pointer is appended |
| PolygonCropperMobile.MobileCropper.Wheel | src/components/Recorte/PolygonCropperMobile.tsx:62-84 | one wheel step that keeps the stage point under the pointer; the vertices are untouched |
| PolygonCropperMobile.MobileCropper.DragEnd | src/components/Recorte/PolygonCropperMobile.tsx:86-89 | the position becomes the dragged node's position: the stage's own, or a vertex circle's, whose `dragend` bubbles up to the stage |
| PolygonCropperMobile.MobileCropper.CompletePolygon | src/components/Recorte/PolygonCropperMobile.tsx:91-93 | the outline is closed iff it was closed already or has at least three vertices |
| PolygonCropperMobile.MobileCropper.ResetPolygon | src/components/Recorte/PolygonCropperMobile.tsx:95-98 | no vertices and an open outline |
| PolygonCropperMobile.MobileCropper.DragVertex | src/components/Recorte/PolygonCropperMobile.tsx:223-231 | on a closed outline only, since the circles are draggable only then: vertex `i` takes the drag position, an index no vertex has changes nothing, and the length and every other vertex are unchanged |
| PolygonCropperOrigin.StageSize | src/components/Recorte/PolygonCropperOrigin.tsx:162-164 | the stage is 550 × 550 for a small image and the image's own size otherwise |
| PolygonCropperOrigin.StageNeverSmall | src/components/Recorte/PolygonCropperOrigin.tsx:27 | either way the stage is at least 350 on both sides |
| PolygonCropperOrigin.CropOutline | src/components/Recorte/PolygonCropperOrigin.tsx:57-71 | no outline without an image or with fewer than three vertices; otherwise it has every vertex, in order, rescaled by natural over stage size |
| PolygonCropperOrigin.CropMapsCornerToCorner | src/components/Recorte/PolygonCropperOrigin.tsx:60-71 | a vertex on the stage's far corner lands on the raster's far corner, on either stage |
| PolygonCropperOrigin.CropOutlineInvertible | src/components/Recorte/PolygonCropperOrigin.tsx:64-71 | rescaling the crop outline back by stage over natural size gives the vertices |
| PolygonCropperOrigin.OriginCropper.constructor | src/components/Recorte/PolygonCropperOrigin.tsx:14-17 | no image, not small, no vertices, an open outline |
| PolygonCropperOrigin.OriginCropper.ImageLoaded | src/components/Recorte/PolygonCropperOrigin.tsx:25-29 | the image is recorded, and it is small iff its width or height is under 350 |
| PolygonCropperOrigin.OriginCropper.PointerDown | src/components/Recorte/PolygonCropperOrigin.tsx:32-39 | a closed outline or a missing pointer leaves the vertices unchanged; otherwise the raw pointer is appended |
| PolygonCropperOrigin.OriginCropper.CompletePolygon | src/components/Recorte/PolygonCropperOrigin.tsx:41-43 | the outline is closed iff it was closed already or has at least three vertices |
| PolygonCropperOrigin.OriginCropper.ResetPolygon | src/components/Recorte/PolygonCropperOrigin.tsx:45-48 | no vertices and an open outline |
| PolygonCropperOrigin.OriginCropper.HandleDragMove | src/components/Recorte/PolygonCropperOrigin.tsx:50-54 | on a closed outline only, since the vertex circles (lines 187 and 264) are draggable only then: vertex `index` takes the drag position; the length and every other vertex are unchanged |
| BackSlice.FormFields | src/store/backSlice.ts:8-13 | the form holds the image, then the action, then the scale, which is there iff `escalaPx` is a number and not NaN |
| BackSlice.InfiniteScaleIsSent | src/store/backSlice.ts:11-13 | an infinite scale is still a number that is not NaN, so it is sent |
| BackSlice.RejectedKey | src/store/backSlice.ts:64 | a rejection is recorded under its action, or under "undefined" when it has no payload |
| BackSlice.RejectedMessage | src/store/backSlice.ts:64-66 | the stored message is never empty; it is the payload's message unless that is missing or empty, in which case it is "Error desconocido" |
| BackSlice.ImageSlice.constructor | src/store/backSlice.ts:41-45 | all three maps start empty |
| BackSlice.ImageSlice.Pending | src/store/backSlice.ts:53-57 | loading and error change at the action's key only, to true and ""; results are untouched |
| BackSlice.ImageSlice.Fulfilled | src/store/backSlice.ts:58-62 | loading and results change at the action's key only, to false and the URL; errors are untouched |
| BackSlice.ImageSlice.Rejected | src/store/backSlice.ts:63-67 | loading and error change at the rejection's key only, to false and the message; results are untouched |

## Left out

- Distances: `Math.sqrt` is not modelled. Every length (labels, pixel distance, line readings, the scale) is stated through its square. `NaN` and `Infinity` results of IEEE arithmetic are not modelled, and numbers are mathematical reals.
- The scale `escala` is represented by its square, `distance² / pixelDistance²`, or as infinite when the two points coincide.
- Decimal.ParseFloat: the `Infinity` literal is not read, and every input that `parseFloat` turns into NaN is "no number". No all-inputs theorem ties it to a reference definition; its values are stated through the literal families and the example inputs.
- Decimal.ReadMantissa: the contract gives only the shape of the parts read (digit strings, at least one digit). That they are the input's longest digit prefix, point and fraction is stated for the main forms by `WholeMantissa` and `FractionMantissa`, not for every input.
- Decimal.ReadLiteral: the contract gives only that the parts are digit strings. The assembled literal is stated for the main forms by `DigitsLiteral`, `FractionLiteral`, `UnsignedLiteral` and `NegatedLiteral`.
- `toFixed(2)` and all label strings: the model keeps numeric values, not text. Text positions, colours and Konva rendering are left out.
- Canvas work is not modelled: `drawImage`, clipping, `toBlob`/`toDataURL`, the download links, and layer hiding and export in the measurement modal. These are browser APIs. The calibration callback's blob is left out for the same reason.
- The calibration modal's 800 × 600 fit of the natural image size is not modelled. It sizes the exported canvas, and also the Stage and the drawn image (ScaleModal.tsx:193-196, 215-219). So it fixes the unit of the clicked points and therefore of `escala`: metres per fitted-image pixel. The model takes the points in that unit as given.
- The axios POST, `createAsyncThunk` wiring and object URLs of the request slice are HTTP and async plumbing. Only the reducer cases and the form rule are modelled.
- Image loading is an `ImageLoaded` method per component. The image's contents and the browser's decoding are not modelled. A loaded image is assumed to have positive dimensions; a zero-sized image would divide by zero in JavaScript.
- MeasurementModal.MeasurementSession.constructor: the calibration factor `scale` is a prop, which may change between renders, and the labels always use its current value. The model fixes it when the session is created.
- DrawToolHook.DrawTool.constructor: `useDrawTool(scale = 1)` has a default of 1, which the model does not give. The caller passes `scale` again on every render and it may change between renders; the model fixes it when the hook is created.
- useDrawTool's `setPoints` is returned to callers, who could replace the points during a drag. The model assumes only the hook's own handlers change them.
- DrawToolHook.DrawTool.EndDrawing: for a line or rectangle release with fewer than two points, the source throws on `undefined` after queueing `isDrawing = false`. The model ends the drag and keeps the result.
- MeasurementModal.MeasurementSession.RemoveByType: modelled as written, but no button calls it. The only buttons that did are commented out (MeasurementModal.tsx:321-329).
- MeasurementModal.MeasurementSession.PointerDown: `handleStageClick` and `handleStagePointer` have identical bodies and are modelled once.
- ScaleModal.CalibrationSession.DragCircle: models the intended one circle per stored point. The source draws one circle per coordinate, so with both points stored two extra circles exist. Dragging one writes past the end of the list, and the four-coordinate bound no longer holds (see "## Findings").
- PolygonCropperOrigin.OriginCropper.HandleDragMove: requires an index of an existing vertex, which the source's one circle per vertex guarantees. An assignment past the end would extend the JavaScript array with holes.
- The desktop cropper's "no stage" guard in `cropImage` is folded into the image guard, because the stage is mounted whenever the image has loaded.
- In the mobile cropper, the stage is mounted only with the image, so `!stageRef.current` is modelled as "no image". A missing pointer makes the handlers throw before any change, which the model treats as "nothing changes".
- Window sizing and resize listeners are left out. The viewport is a constructor parameter of the mobile cropper.
- Drag end on both Stages stores `e.target.position()`. When a circle's drag ends, this is the circle's position, not the stage's. The model takes whatever position the handler receives as its argument.

## Findings

| source | as written | input that shows it | evidently intended | confidence | as-written member | corrected member |
|---|---|---|---|---|---|---|
| src/components/Modal/ScaleModal.tsx:230-243 | `points.map((_, i) => <Circle .../>)` draws one draggable circle per coordinate; circle `i` writes coordinates `2i` and `2i + 1` | two points stored as `[x1, y1, x2, y2]`; the user drags the third circle (drawn at undefined coordinates). The list becomes six coordinates, and from then on `points.length !== 4` (line 85) ignores every calibration until a reset | one circle per stored point, so a drag moves that point and the list keeps four coordinates | not executed; medium: it rests on reading only, including whether Konva lets a circle at undefined coordinates be grabbed | ScaleModal.ExtraCircleDragBlocksCalibration | ScaleModal.CalibrationSession.DragCircle |
