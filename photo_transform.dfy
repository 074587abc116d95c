/**
 * The photo-transform state of the editor and the events that change it:
 * reset, photo upload, mouse drag, wheel zoom, one-finger drag and
 * two-finger pinch. Pointer positions are given in canvas coordinates;
 * the pinch distance is given as measured.
 */
module PhotoTransform {
  import opened Wrappers

  const MinScale: real := 0.3
  const MaxScale: real := 3.0
  /** Zoom change per wheel notch. */
  const WheelStep: real := 0.05
  /** Zoom change per unit of change in finger distance. */
  const PinchFactor: real := 0.005

  /** A decoded photo, by its natural size. */
  datatype Photo = Photo(width: nat, height: nat)

  /**
   * The whole mutable state: the photo (if any), its zoom and pan, and the
   * scratch state of an open drag or pinch gesture.
   */
  datatype Transform = Transform(
    photo: Option<Photo>,
    scale: real,
    offsetX: real,
    offsetY: real,
    dragging: bool,
    dragStartX: real,
    dragStartY: real,
    initialOffsetX: real,
    initialOffsetY: real,
    lastTouchDist: real)

  /** The zoom stays within its clamp. */
  predicate Valid(t: Transform) {
    MinScale <= t.scale <= MaxScale
  }

  /** The state at page load: no photo, identity transform, no gesture. */
  const Initial: Transform := Transform(None, 1.0, 0.0, 0.0, false, 0.0, 0.0, 0.0, 0.0, 0.0)

  /** `Math.max(0.3, Math.min(3, v))`. */
  function Clamp(v: real): (r: real)
    ensures MinScale <= r <= MaxScale
    ensures MinScale <= v <= MaxScale ==> r == v
    ensures v > MaxScale ==> r == MaxScale
    ensures v < MinScale ==> r == MinScale
  {
    if v > MaxScale then MaxScale else if v < MinScale then MinScale else v
  }

  /** The touches of a touch event: how many, where the first is, and the distance between the first two. */
  datatype Touches = Touches(count: nat, x: real, y: real, dist: real)

  /** `type.startsWith('image/')`. */
  predicate IsImageType(mimeType: string) {
    |"image/"| <= |mimeType| && mimeType[..|"image/"|] == "image/"
  }

  /**
   * The guard is a prefix test on the type string: every `image/...` type
   * passes, and a type that passes is `image/` followed by its subtype.
   */
  lemma ImageTypeIsPrefix(mimeType: string, subtype: string)
    ensures IsImageType("image/" + subtype)
    ensures IsImageType(mimeType) ==> mimeType == "image/" + mimeType[|"image/"|..]
  {
    assert ("image/" + subtype)[..|"image/"|] == "image/";
  }

  /** The comparison is case-sensitive, and a bare `image` is refused. */
  lemma ImageTypeExamples(png: string, upper: string, bare: string, pdf: string)
    requires png == "image/png" && upper == "Image/png" && bare == "image" && pdf == "application/pdf"
    ensures IsImageType(png) && !IsImageType(upper) && !IsImageType(bare) && !IsImageType(pdf)
  {
    ImageTypeIsPrefix(png, "png");
    assert png == "image/" + "png";
    assert upper[0] != "image/"[0];
    assert pdf[0] != "image/"[0];
  }

  // ---- one function per event ----

  /** The reset button, and the last step of an upload: identity zoom and pan. */
  function OnReset(t: Transform): (r: Transform)
    ensures Valid(r)
    ensures r.scale == 1.0 && r.offsetX == 0.0 && r.offsetY == 0.0
    ensures r.photo == t.photo && r.dragging == t.dragging && r.lastTouchDist == t.lastTouchDist
    ensures r.dragStartX == t.dragStartX && r.dragStartY == t.dragStartY
    ensures r.initialOffsetX == t.initialOffsetX && r.initialOffsetY == t.initialOffsetY
  {
    t.(scale := 1.0, offsetX := 0.0, offsetY := 0.0)
  }

  /**
   * A chosen or dropped file: a non-image type is refused and nothing
   * changes; an image becomes the photo and the transform is reset.
   */
  function OnUpload(t: Transform, mimeType: string, img: Photo): (r: Transform)
    ensures !IsImageType(mimeType) ==> r == t
    ensures IsImageType(mimeType) ==> r == OnReset(t.(photo := Some(img)))
  {
    if !IsImageType(mimeType) then t else OnReset(t.(photo := Some(img)))
  }

  /** Start of a drag with the pointer at `(x, y)`; ignored without a photo. */
  function OnDragStart(t: Transform, x: real, y: real): (r: Transform)
    ensures t.photo.None? ==> r == t
    ensures t.photo.Some? ==> r.dragging && r.dragStartX == x && r.dragStartY == y
    ensures t.photo.Some? ==> r.initialOffsetX == t.offsetX && r.initialOffsetY == t.offsetY
    ensures r.scale == t.scale && r.offsetX == t.offsetX && r.offsetY == t.offsetY
    ensures r.photo == t.photo && r.lastTouchDist == t.lastTouchDist
  {
    if t.photo.None? then t
    else t.(dragging := true, dragStartX := x, dragStartY := y,
            initialOffsetX := t.offsetX, initialOffsetY := t.offsetY)
  }

  /** The pointer moved to `(x, y)`: during a drag the photo follows it from where the drag began. */
  function OnDragMove(t: Transform, x: real, y: real): (r: Transform)
    ensures !t.dragging || t.photo.None? ==> r == t
    ensures t.dragging && t.photo.Some? ==>
              r.offsetX - t.initialOffsetX == x - t.dragStartX && r.offsetY - t.initialOffsetY == y - t.dragStartY
    ensures r.scale == t.scale && r.dragging == t.dragging && r.photo == t.photo
    ensures r.dragStartX == t.dragStartX && r.dragStartY == t.dragStartY
    ensures r.initialOffsetX == t.initialOffsetX && r.initialOffsetY == t.initialOffsetY
    ensures r.lastTouchDist == t.lastTouchDist
  {
    if !t.dragging || t.photo.None? then t
    else t.(offsetX := t.initialOffsetX + (x - t.dragStartX), offsetY := t.initialOffsetY + (y - t.dragStartY))
  }

  /** Mouse up or mouse leave: the drag ends. */
  function OnDragEnd(t: Transform): (r: Transform)
    ensures !r.dragging
    ensures r == t.(dragging := false)
  {
    t.(dragging := false)
  }

  /** A wheel notch: down zooms out by 0.05, up zooms in by 0.05, within the clamp. */
  function OnWheel(t: Transform, deltaY: real): (r: Transform)
    ensures t.photo.None? ==> r == t
    ensures t.photo.Some? ==> r == t.(scale := Clamp(t.scale + (if deltaY > 0.0 then -WheelStep else WheelStep)))
    ensures t.photo.Some? ==> MinScale <= r.scale <= MaxScale
    ensures Valid(t) && deltaY > 0.0 ==> r.scale <= t.scale
    ensures Valid(t) && deltaY <= 0.0 ==> r.scale >= t.scale
  {
    if t.photo.None? then t
    else
      var delta := if deltaY > 0.0 then -WheelStep else WheelStep;
      t.(scale := Clamp(t.scale + delta))
  }

  /** Touch start: one finger starts a drag, two fingers record their distance. */
  function OnTouchStart(t: Transform, touches: Touches): (r: Transform)
    ensures t.photo.None? ==> r == t
    ensures t.photo.Some? && touches.count == 1 ==> r == OnDragStart(t, touches.x, touches.y)
    ensures t.photo.Some? && touches.count == 2 ==> r == t.(lastTouchDist := touches.dist)
    ensures touches.count != 1 && touches.count != 2 ==> r == t
  {
    if t.photo.None? then t
    else if touches.count == 1 then OnDragStart(t, touches.x, touches.y)
    else if touches.count == 2 then t.(lastTouchDist := touches.dist)
    else t
  }

  /**
   * Touch move: one finger continues a drag; two fingers zoom by the
   * change in their distance (only once a distance is known) and record
   * the new distance.
   */
  function OnTouchMove(t: Transform, touches: Touches): (r: Transform)
    ensures t.photo.None? ==> r == t
    ensures touches.count == 1 ==> r == OnDragMove(t, touches.x, touches.y)
    ensures t.photo.Some? && touches.count == 2 ==> r.lastTouchDist == touches.dist
    ensures t.photo.Some? && touches.count == 2 && t.lastTouchDist > 0.0 ==>
              r.scale == Clamp(t.scale + (touches.dist - t.lastTouchDist) * PinchFactor)
    ensures touches.count == 2 && t.lastTouchDist <= 0.0 ==> r.scale == t.scale
    ensures touches.count == 2 ==> r.offsetX == t.offsetX && r.offsetY == t.offsetY && r.dragging == t.dragging
    ensures t.photo.Some? && touches.count == 2 ==> r == t.(scale := r.scale, lastTouchDist := touches.dist)
    ensures touches.count != 1 && touches.count != 2 ==> r == t
  {
    if t.photo.None? then t
    else if touches.count == 1 && t.dragging then OnDragMove(t, touches.x, touches.y)
    else if touches.count == 2 then
      var scaled := if t.lastTouchDist > 0.0
                    then Clamp(t.scale + (touches.dist - t.lastTouchDist) * PinchFactor)
                    else t.scale;
      t.(scale := scaled, lastTouchDist := touches.dist)
    else t
  }

  /** Touch end: the drag ends and the pinch distance is forgotten. */
  function OnTouchEnd(t: Transform): (r: Transform)
    ensures !r.dragging && r.lastTouchDist == 0.0
    ensures r == t.(dragging := false, lastTouchDist := 0.0)
  {
    t.(dragging := false, lastTouchDist := 0.0)
  }

  // ---- event sequences ----

  datatype Event =
    | Reset
    | Upload(mimeType: string, img: Photo)
    | MouseDown(x: real, y: real)
    | MouseMove(x: real, y: real)
    | MouseUp
    | MouseLeave
    | Wheel(deltaY: real)
    | TouchStart(touches: Touches)
    | TouchMove(touches: Touches)
    | TouchEnd

  function Step(t: Transform, e: Event): Transform {
    match e
    case Reset => OnReset(t)
    case Upload(mimeType, img) => OnUpload(t, mimeType, img)
    case MouseDown(x, y) => OnDragStart(t, x, y)
    case MouseMove(x, y) => OnDragMove(t, x, y)
    case MouseUp => OnDragEnd(t)
    case MouseLeave => OnDragEnd(t)
    case Wheel(deltaY) => OnWheel(t, deltaY)
    case TouchStart(touches) => OnTouchStart(t, touches)
    case TouchMove(touches) => OnTouchMove(t, touches)
    case TouchEnd => OnTouchEnd(t)
  }

  function Run(t: Transform, events: seq<Event>): Transform
    decreases |events|
  {
    if events == [] then t else Run(Step(t, events[0]), events[1..])
  }

  /** Every event keeps the zoom within its clamp. */
  lemma StepPreservesValid(t: Transform, e: Event)
    requires Valid(t)
    ensures Valid(Step(t, e))
  {
  }

  /** However many events arrive, the zoom stays within `[0.3, 3]`. */
  lemma {:induction false} RunPreservesValid(t: Transform, events: seq<Event>)
    requires Valid(t)
    ensures Valid(Run(t, events))
    decreases |events|
  {
    if events != [] {
      StepPreservesValid(t, events[0]);
      RunPreservesValid(Step(t, events[0]), events[1..]);
    }
  }

  /** The zoom is within its clamp from the first render on. */
  lemma InitialValid()
    ensures Valid(Initial) && Initial.photo.None?
  {
  }

  function ZoomIns(n: nat): seq<Event> {
    seq(n, _ => Wheel(-1.0))
  }

  /**
   * `n` zoom-in notches with a photo loaded raise the zoom by `0.05 * n`,
   * stopping at 3 (200 notches from 1 give exactly 3).
   */
  lemma {:induction false} ZoomInsSaturate(t: Transform, n: nat)
    requires Valid(t) && t.photo.Some?
    ensures Run(t, ZoomIns(n)).scale == Clamp(t.scale + WheelStep * (n as real))
    ensures t.scale + WheelStep * (n as real) <= MaxScale ==> Run(t, ZoomIns(n)).scale == t.scale + WheelStep * (n as real)
    ensures Run(t, ZoomIns(n)).photo == t.photo
    decreases n
  {
    if n > 0 {
      var t1 := Step(t, Wheel(-1.0));
      assert t1.scale == Clamp(t.scale + WheelStep);
      assert ZoomIns(n)[0] == Wheel(-1.0);
      assert ZoomIns(n)[1..] == ZoomIns(n - 1);
      ZoomInsSaturate(t1, n - 1);
    }
  }

  /** An event that moves or zooms nothing by itself when no photo is loaded. */
  predicate IsGesture(e: Event) {
    !e.Reset? && !e.Upload?
  }

  /**
   * Without a photo, no pointer, wheel or touch event changes the
   * zoom or the pan, however many arrive.
   */
  lemma {:induction false} NoPhotoGesturesInert(t: Transform, events: seq<Event>)
    requires t.photo.None?
    requires forall i :: 0 <= i < |events| ==> IsGesture(events[i])
    ensures var r := Run(t, events);
            r.scale == t.scale && r.offsetX == t.offsetX && r.offsetY == t.offsetY && r.photo.None?
    decreases |events|
  {
    if events != [] {
      var t1 := Step(t, events[0]);
      assert IsGesture(events[0]);
      assert t1.scale == t.scale && t1.offsetX == t.offsetX && t1.offsetY == t.offsetY && t1.photo.None?;
      assert forall i :: 0 <= i < |events[1..]| ==> events[1..][i] == events[i + 1];
      NoPhotoGesturesInert(t1, events[1..]);
    }
  }

  /**
   * A mouse drag: after pressing at `(x0, y0)` and moving through any
   * points, the photo is offset from where it was by the last point
   * minus the first.
   */
  lemma {:induction false} DragFollowsPointer(t: Transform, x0: real, y0: real, moves: seq<Event>)
    requires t.photo.Some?
    requires |moves| > 0 && forall i :: 0 <= i < |moves| ==> moves[i].MouseMove?
    ensures var r := Run(t, [MouseDown(x0, y0)] + moves);
            var last := moves[|moves| - 1];
            r.offsetX == t.offsetX + (last.x - x0) && r.offsetY == t.offsetY + (last.y - y0)
            && r.scale == t.scale && r.dragging
  {
    var t1 := Step(t, MouseDown(x0, y0));
    assert ([MouseDown(x0, y0)] + moves)[1..] == moves;
    DragMoves(t1, moves);
  }

  /** Moves during a drag: the offset follows the last pointer position. */
  lemma {:induction false} DragMoves(t: Transform, moves: seq<Event>)
    requires t.photo.Some? && t.dragging
    requires |moves| > 0 && forall i :: 0 <= i < |moves| ==> moves[i].MouseMove?
    ensures var r := Run(t, moves);
            var last := moves[|moves| - 1];
            r.offsetX == t.initialOffsetX + (last.x - t.dragStartX)
            && r.offsetY == t.initialOffsetY + (last.y - t.dragStartY)
            && r.scale == t.scale && r.dragging && r.photo == t.photo
            && r.initialOffsetX == t.initialOffsetX && r.initialOffsetY == t.initialOffsetY
            && r.dragStartX == t.dragStartX && r.dragStartY == t.dragStartY
    decreases |moves|
  {
    var t1 := Step(t, moves[0]);
    if |moves| > 1 {
      assert forall i :: 0 <= i < |moves[1..]| ==> moves[1..][i] == moves[i + 1];
      DragMoves(t1, moves[1..]);
    }
  }

  /** Once the drag ends, moving the pointer changes nothing. */
  lemma MoveAfterDragEnd(t: Transform, x: real, y: real)
    ensures Step(Step(t, MouseUp), MouseMove(x, y)) == Step(t, MouseUp)
  {
  }

  /**
   * A pinch: two fingers come down at distance `d0` and move to `d1`;
   * the zoom changes by `(d1 - d0) * 0.005`, clamped, when `d0 > 0`.
   */
  lemma PinchZoom(t: Transform, start: Touches, move: Touches)
    requires t.photo.Some? && start.count == 2 && move.count == 2
    ensures var r := Run(t, [TouchStart(start), TouchMove(move)]);
            r.scale == (if start.dist > 0.0 then Clamp(t.scale + (move.dist - start.dist) * PinchFactor) else t.scale)
            && r.lastTouchDist == move.dist && r.offsetX == t.offsetX && r.offsetY == t.offsetY
  {
    var t1 := Step(t, TouchStart(start));
    assert t1 == t.(lastTouchDist := start.dist);
    assert [TouchStart(start), TouchMove(move)][1..] == [TouchMove(move)];
    assert [TouchMove(move)][1..] == [];
    assert Run(t, [TouchStart(start), TouchMove(move)]) == Run(t1, [TouchMove(move)]);
    assert Run(t1, [TouchMove(move)]) == Step(t1, TouchMove(move));
  }

  /** After the fingers lift, the first move of a new pinch does not zoom. */
  lemma PinchAfterTouchEnd(t: Transform, move: Touches)
    requires move.count == 2
    ensures Step(Step(t, TouchEnd), TouchMove(move)).scale == t.scale
  {
  }

  /** A refused file changes nothing, however the state stood. */
  lemma RefusedUploadChangesNothing(t: Transform, mimeType: string, img: Photo)
    requires !IsImageType(mimeType)
    ensures Step(t, Upload(mimeType, img)) == t
  {
  }

  /** An accepted image is shown at zoom 1 and no pan, whatever came before. */
  lemma AcceptedUploadResets(t: Transform, mimeType: string, img: Photo)
    requires IsImageType(mimeType)
    ensures var r := Step(t, Upload(mimeType, img));
            r.photo == Some(img) && r.scale == 1.0 && r.offsetX == 0.0 && r.offsetY == 0.0
  {
  }

  // ---- the editor's state as the page holds it ----

  /**
   * The module-level state of the page as one object; each method is one
   * event handler and leaves the state `Step` gives for that event.
   */
  class PhotoEditor {
    var photo: Option<Photo>
    var scale: real
    var offsetX: real
    var offsetY: real
    var dragging: bool
    var dragStartX: real
    var dragStartY: real
    var initialOffsetX: real
    var initialOffsetY: real
    var lastTouchDist: real

    function State(): Transform
      reads this
    {
      Transform(photo, scale, offsetX, offsetY, dragging, dragStartX, dragStartY,
                initialOffsetX, initialOffsetY, lastTouchDist)
    }

    predicate IsValid()
      reads this
    {
      Valid(State())
    }

    constructor ()
      ensures State() == Initial && IsValid()
    {
      photo := None;
      scale, offsetX, offsetY := 1.0, 0.0, 0.0;
      dragging := false;
      dragStartX, dragStartY, initialOffsetX, initialOffsetY := 0.0, 0.0, 0.0, 0.0;
      lastTouchDist := 0.0;
    }

    method ResetPhotoSettings()
      requires IsValid()
      modifies this
      ensures IsValid() && State() == Step(old(State()), Reset)
    {
      scale := 1.0;
      offsetX := 0.0;
      offsetY := 0.0;
    }

    /** Returns whether the file was taken; a refused file leaves a notice for the user and nothing else. */
    method HandlePhotoFile(mimeType: string, img: Photo) returns (accepted: bool)
      requires IsValid()
      modifies this
      ensures accepted == IsImageType(mimeType)
      ensures IsValid() && State() == Step(old(State()), Upload(mimeType, img))
    {
      if !IsImageType(mimeType) {
        return false;
      }
      photo := Some(img);
      ResetPhotoSettings();
      accepted := true;
    }

    method MouseDown(x: real, y: real)
      requires IsValid()
      modifies this
      ensures IsValid() && State() == Step(old(State()), Event.MouseDown(x, y))
    {
      if photo.None? {
        return;
      }
      dragging := true;
      dragStartX, dragStartY := x, y;
      initialOffsetX, initialOffsetY := offsetX, offsetY;
    }

    method MouseMove(x: real, y: real)
      requires IsValid()
      modifies this
      ensures IsValid() && State() == Step(old(State()), Event.MouseMove(x, y))
    {
      if !dragging || photo.None? {
        return;
      }
      offsetX := initialOffsetX + (x - dragStartX);
      offsetY := initialOffsetY + (y - dragStartY);
    }

    /** Mouse up and mouse leave: both end the drag. */
    method MouseUp()
      requires IsValid()
      modifies this
      ensures IsValid() && State() == Step(old(State()), Event.MouseUp)
      ensures State() == Step(old(State()), Event.MouseLeave)
    {
      dragging := false;
    }

    method Wheel(deltaY: real)
      requires IsValid()
      modifies this
      ensures IsValid() && State() == Step(old(State()), Event.Wheel(deltaY))
    {
      if photo.None? {
        return;
      }
      var delta := if deltaY > 0.0 then -WheelStep else WheelStep;
      scale := Clamp(scale + delta);
    }

    method TouchStart(touches: Touches)
      requires IsValid()
      modifies this
      ensures IsValid() && State() == Step(old(State()), Event.TouchStart(touches))
    {
      if photo.None? {
        return;
      }
      if touches.count == 1 {
        dragging := true;
        dragStartX, dragStartY := touches.x, touches.y;
        initialOffsetX, initialOffsetY := offsetX, offsetY;
      } else if touches.count == 2 {
        lastTouchDist := touches.dist;
      }
    }

    method TouchMove(touches: Touches)
      requires IsValid()
      modifies this
      ensures IsValid() && State() == Step(old(State()), Event.TouchMove(touches))
    {
      if photo.None? {
        return;
      }
      if touches.count == 1 && dragging {
        offsetX := initialOffsetX + (touches.x - dragStartX);
        offsetY := initialOffsetY + (touches.y - dragStartY);
      } else if touches.count == 2 {
        if lastTouchDist > 0.0 {
          var delta := (touches.dist - lastTouchDist) * PinchFactor;
          scale := Clamp(scale + delta);
        }
        lastTouchDist := touches.dist;
      }
    }

    method TouchEnd()
      requires IsValid()
      modifies this
      ensures IsValid() && State() == Step(old(State()), Event.TouchEnd)
    {
      dragging := false;
      lastTouchDist := 0.0;
    }
  }
}
