/** One draggable landmark handle. Its position is kept in image space and
    moved by the incremental drag deltas of a one-finger pan, divided by the
    current image scale; it is drawn at its image position projected through
    the current view transform. */
module DraggablePoint {
  import opened Geometry
  import opened JsNumber

  /** The image-space position after one `onChange` event carrying the screen
      delta (`changeX`, `changeY`). A disabled gesture never fires, and the
      delta is dropped unless the scale read through `imageScale?.value` is
      greater than zero. A scale of +Infinity passes that test but adds
      `change / Infinity == 0`, so every non-finite scale leaves the point
      where it is. */
  function Dragged(p: Point, changeX: real, changeY: real, imageScale: Num, enabled: bool): (r: Point)
    ensures !enabled ==> r == p
    ensures !IsPositive(imageScale) ==> r == p
    ensures enabled && IsPositive(imageScale) ==>
      (r.x - p.x) * imageScale.value == changeX && (r.y - p.y) * imageScale.value == changeY
  {
    if enabled && IsPositive(imageScale) then
      var s := imageScale.value;
      assert (changeX / s) * s == changeX && (changeY / s) * s == changeY;
      Point(p.x + changeX / s, p.y + changeY / s)
    else
      p
  }

  /** The point follows the finger: with a positive scale, one drag event
      moves the drawn handle by exactly the screen delta, whatever the pan. */
  lemma {:induction false} DragFollowsFinger(p: Point, changeX: real, changeY: real, scale: real, translateX: real, translateY: real)
    requires scale > 0.0
    ensures ToScreen(Dragged(p, changeX, changeY, Finite(scale), true), scale, translateX, translateY)
         == Translate(ToScreen(p, scale, translateX, translateY), changeX, changeY)
  {
    var q := Dragged(p, changeX, changeY, Finite(scale), true);
    var u, v := changeX / scale, changeY / scale;
    assert q == Point(p.x + u, p.y + v);
    assert u * scale == changeX && v * scale == changeY;
    assert (p.x + u) * scale == p.x * scale + u * scale;
    assert (p.y + v) * scale == p.y * scale + v * scale;
    assert ToScreen(q, scale, translateX, translateY)
        == Point(p.x * scale + changeX + translateX, p.y * scale + changeY + translateY);
  }

  /** The drag events of one gesture, applied in the order received. */
  function DraggedAlong(p: Point, changes: seq<Point>, imageScale: Num, enabled: bool): Point
    decreases |changes|
  {
    if changes == [] then p
    else DraggedAlong(Dragged(p, changes[0].x, changes[0].y, imageScale, enabled), changes[1..], imageScale, enabled)
  }

  /** Sum of a sequence of screen deltas. */
  function Total(changes: seq<Point>): Point
    decreases |changes|
  {
    if changes == [] then Point(0.0, 0.0)
    else Translate(Total(changes[1..]), changes[0].x, changes[0].y)
  }

  /** Deltas are accumulated, never recomputed from a start position: over a
      whole gesture at a fixed positive scale the handle moves on screen by
      the total finger movement. */
  lemma {:induction false} DragAlongFollowsFinger(p: Point, changes: seq<Point>, scale: real, translateX: real, translateY: real)
    requires scale > 0.0
    ensures ToScreen(DraggedAlong(p, changes, Finite(scale), true), scale, translateX, translateY)
         == Translate(ToScreen(p, scale, translateX, translateY), Total(changes).x, Total(changes).y)
    decreases |changes|
  {
    if changes != [] {
      var q := Dragged(p, changes[0].x, changes[0].y, Finite(scale), true);
      DragFollowsFinger(p, changes[0].x, changes[0].y, scale, translateX, translateY);
      DragAlongFollowsFinger(q, changes[1..], scale, translateX, translateY);
    }
  }

  /** A disabled handle does not move, however long it is dragged. */
  lemma {:induction false} DisabledNeverMoves(p: Point, changes: seq<Point>, imageScale: Num)
    ensures DraggedAlong(p, changes, imageScale, false) == p
    decreases |changes|
  {
    if changes != [] {
      DisabledNeverMoves(p, changes[1..], imageScale);
    }
  }

  /** The two shared values `x` and `y` that a screen hands to one handle. */
  class Handle {
    var x: real
    var y: real

    function Position(): Point
      reads this
    {
      Point(x, y)
    }

    constructor (p: Point)
      ensures Position() == p
    {
      x := p.x;
      y := p.y;
    }

    /** The pan gesture's `onChange` handler: `x.value += event.changeX / imageScale.value`. */
    method OnChange(changeX: real, changeY: real, imageScale: Num, enabled: bool)
      modifies this
      ensures Position() == Dragged(old(Position()), changeX, changeY, imageScale, enabled)
    {
      if enabled && imageScale.Finite? && imageScale.value > 0.0 {
        x := x + changeX / imageScale.value;
        y := y + changeY / imageScale.value;
      }
    }
  }

  /** The animated style of a handle: either dimmed to opacity 0.2 with no
      transform, or placed at a screen position with an opacity. */
  datatype Style = Dimmed | Placed(translateX: real, translateY: real, opacity: real)

  /** `animatedStyle`: absent inputs default to scale 1, translation 0 and
      position 0; any non-finite input dims the handle; otherwise the handle
      sits at its projected position, fully opaque when enabled and at half
      opacity when disabled. */
  function AnimatedStyle(imageScale: Num, imageTranslateX: Num, imageTranslateY: Num, x: Num, y: Num, enabled: bool): (r: Style)
    ensures r.Dimmed? <==>
      imageScale.NonFinite? || imageTranslateX.NonFinite? || imageTranslateY.NonFinite? || x.NonFinite? || y.NonFinite?
    ensures r.Placed? ==> r.opacity == (if enabled then 1.0 else 0.5)
    // an absent input takes its `??` default: scale 1, translation 0, position 0
    ensures r.Placed? ==>
      Point(r.translateX, r.translateY)
        == ToScreen(Point(Coalesce(x, 0.0).value, Coalesce(y, 0.0).value),
                    Coalesce(imageScale, 1.0).value, Coalesce(imageTranslateX, 0.0).value, Coalesce(imageTranslateY, 0.0).value)
    ensures r.Placed? && imageScale.Finite? && imageTranslateX.Finite? && imageTranslateY.Finite? && x.Finite? && y.Finite? ==>
      Point(r.translateX, r.translateY)
        == ToScreen(Point(x.value, y.value), imageScale.value, imageTranslateX.value, imageTranslateY.value)
  {
    var scale := Coalesce(imageScale, 1.0);
    var tx := Coalesce(imageTranslateX, 0.0);
    var ty := Coalesce(imageTranslateY, 0.0);
    var px := Coalesce(x, 0.0);
    var py := Coalesce(y, 0.0);
    if scale.NonFinite? || tx.NonFinite? || ty.NonFinite? || px.NonFinite? || py.NonFinite? then
      Dimmed
    else
      var screen := ToScreen(Point(px.value, py.value), scale.value, tx.value, ty.value);
      Placed(screen.x, screen.y, if enabled then 1.0 else 0.5)
  }

  /** With every input absent the handle is drawn at the screen origin, as if
      under the identity transform at image position (0, 0). */
  lemma AllMissingDefaults(enabled: bool)
    ensures AnimatedStyle(Missing, Missing, Missing, Missing, Missing, enabled)
         == Placed(0.0, 0.0, if enabled then 1.0 else 0.5)
  {
  }
}
