/** The pan/zoom view transform that the calibration screen, the measurement
    screen and the reusable zoom view each keep in six shared values: the live
    `scale`, `translateX`, `translateY`, and the `saved*` copies committed at
    the end of every gesture. A pinch or pan update recomputes the live value
    from the saved one and the gesture's cumulative reading; an end event
    commits the live value. Zoom is about the image origin, not about the
    pinch focal point. */
module ViewTransform {
  import opened Geometry

  /** Upper pinch bound, the same on every screen. */
  const MaxScale: real := 5.0
  /** Lower pinch bound of the calibration screen. */
  const AdjustMinScale: real := 0.5
  /** Lower pinch bound of the measurement screen. */
  const MeasurementMinScale: real := 1.0
  /** Lower pinch bound of the reusable zoom view. */
  const ZoomableViewMinScale: real := 1.0

  /** The zoom levels offered by the "Zoom 1x/2x/4x" buttons of both screens. */
  predicate IsPresetZoom(zoom: real) {
    zoom == 1.0 || zoom == 2.0 || zoom == 4.0
  }

  /** A lower bound that keeps the identity scale reachable: every screen's bound is one. */
  predicate ValidMinScale(minScale: real) {
    0.0 < minScale <= 1.0
  }

  /** `Math.max(lo, Math.min(v, hi))`. */
  function Clamp(v: real, lo: real, hi: real): (r: real)
    requires lo <= hi
    ensures lo <= r <= hi
    ensures lo <= v <= hi ==> r == v
    ensures v < lo ==> r == lo
    ensures hi < v ==> r == hi
  {
    var m := if v < hi then v else hi;
    if lo < m then m else lo
  }

  /** The six shared values of one screen. */
  datatype Transform = Transform(
    scale: real, translateX: real, translateY: real,
    savedScale: real, savedTranslateX: real, savedTranslateY: real)

  /** `useSharedValue(1)` for both scales, `useSharedValue(0)` for the four translations. */
  function Identity(): (r: Transform)
    // nothing is pending: the live values are the committed ones
    ensures r.scale == r.savedScale && r.translateX == r.savedTranslateX && r.translateY == r.savedTranslateY
    // every image point is drawn where it is
    ensures forall p :: ToScreen(p, r.scale, r.translateX, r.translateY) == p
    // within every screen's pinch bounds
    ensures forall minScale :: ValidMinScale(minScale) ==> minScale <= r.scale <= MaxScale
  {
    Transform(1.0, 0.0, 0.0, 1.0, 0.0, 0.0)
  }

  /** One handler invocation, in the order the gesture system delivers them. */
  datatype Event =
    | PinchUpdate(gestureScale: real)                 // pinch `onUpdate`, `e.scale` is cumulative
    | PinchEnd                                        // pinch `onEnd`
    | PanUpdate(translationX: real, translationY: real) // two-finger pan `onUpdate`, cumulative
    | PanEnd                                          // pan `onEnd`
    | CenterForZoom(zoom: real, screenWidth: real, screenHeight: real) // `centerImageForZoom`
    | ResetZoom                                       // `resetZoomWorklet` / `reset`

  /** The translation that keeps the middle of an extent fixed under a zoom:
      `(extent / 2) * (1 - zoom)` on the calibration screen and
      `c - c * zoom` with `c = extent / 2` on the measurement screen. */
  function CenteringOffset(extent: real, zoom: real): (t: real)
    ensures (extent / 2.0) * zoom + t == extent / 2.0
  {
    (extent / 2.0) * (1.0 - zoom)
  }

  /** Everything but the live scale. */
  predicate SameExceptScale(r: Transform, t: Transform) {
    r.translateX == t.translateX && r.translateY == t.translateY &&
    r.savedScale == t.savedScale && r.savedTranslateX == t.savedTranslateX &&
    r.savedTranslateY == t.savedTranslateY
  }

  /** The effect of one handler on the six values, with `withTiming(v)` taken
      as the assignment of `v`. */
  function Step(t: Transform, e: Event, minScale: real): (r: Transform)
    requires minScale <= MaxScale
    // pinch update: the live scale is the committed scale times the pinch, clamped; nothing else moves
    ensures e.PinchUpdate? ==>
      SameExceptScale(r, t) && minScale <= r.scale <= MaxScale &&
      (minScale <= t.savedScale * e.gestureScale <= MaxScale ==> r.scale == t.savedScale * e.gestureScale) &&
      (t.savedScale * e.gestureScale > MaxScale ==> r.scale == MaxScale) &&
      (t.savedScale * e.gestureScale < minScale ==> r.scale == minScale)
    // pinch end: commits the live scale and nothing else
    ensures e.PinchEnd? ==> r == t.(savedScale := t.scale)
    // pan update: live translation is the committed one plus the cumulative movement; scale untouched
    ensures e.PanUpdate? ==>
      r.translateX - t.savedTranslateX == e.translationX &&
      r.translateY - t.savedTranslateY == e.translationY &&
      r.scale == t.scale && r.savedScale == t.savedScale &&
      r.savedTranslateX == t.savedTranslateX && r.savedTranslateY == t.savedTranslateY
    // pan end: commits the live translation and nothing else
    ensures e.PanEnd? ==> r == t.(savedTranslateX := t.translateX, savedTranslateY := t.translateY)
    // preset zoom: live and saved agree, and the screen centre stays where it is
    ensures e.CenterForZoom? ==>
      r.scale == r.savedScale == e.zoom &&
      r.translateX == r.savedTranslateX && r.translateY == r.savedTranslateY &&
      ToScreen(Point(e.screenWidth / 2.0, e.screenHeight / 2.0), r.scale, r.translateX, r.translateY)
        == Point(e.screenWidth / 2.0, e.screenHeight / 2.0)
    // reset: the identity, live and saved
    ensures e.ResetZoom? ==> r == Identity()
  {
    match e
    case PinchUpdate(g) => t.(scale := Clamp(t.savedScale * g, minScale, MaxScale))
    case PinchEnd => t.(savedScale := t.scale)
    case PanUpdate(dx, dy) => t.(translateX := t.savedTranslateX + dx, translateY := t.savedTranslateY + dy)
    case PanEnd => t.(savedTranslateX := t.translateX, savedTranslateY := t.translateY)
    case CenterForZoom(zoom, w, h) =>
      var tx := CenteringOffset(w, zoom);
      var ty := CenteringOffset(h, zoom);
      Transform(zoom, tx, ty, zoom, tx, ty)
    case ResetZoom => Identity()
  }

  /** The handlers applied one after another. */
  function Run(t: Transform, events: seq<Event>, minScale: real): (r: Transform)
    requires minScale <= MaxScale
    // no event, no change
    ensures events == [] ==> r == t
    // whatever came before, a stream that ends with a reset ends at the identity
    ensures events != [] && events[|events| - 1].ResetZoom? ==> r == Identity()
    decreases |events|
  {
    if events == [] then t else Run(Step(t, events[0], minScale), events[1..], minScale)
  }

  /** Running two streams one after the other is running their concatenation:
      the handlers keep no state besides the six values. */
  lemma {:induction false} RunConcat(t: Transform, first: seq<Event>, second: seq<Event>, minScale: real)
    requires minScale <= MaxScale
    ensures Run(t, first + second, minScale) == Run(Run(t, first, minScale), second, minScale)
    decreases |first|
  {
    if first == [] {
      assert first + second == second;
    } else {
      assert (first + second)[1..] == first[1..] + second;
      RunConcat(Step(t, first[0], minScale), first[1..], second, minScale);
    }
  }

  /** Both scales lie within the pinch bounds. */
  predicate ScalesInRange(t: Transform, minScale: real) {
    minScale <= t.scale <= MaxScale && minScale <= t.savedScale <= MaxScale
  }

  /** Every preset zoom in the stream lies within the pinch bounds. */
  predicate PresetsInRange(events: seq<Event>, minScale: real) {
    forall i :: 0 <= i < |events| && events[i].CenterForZoom? ==>
      minScale <= events[i].zoom <= MaxScale
  }

  /** Pinch, pan, their ends, reset, and any preset zoom within the bounds keep
      both scales within the bounds, whatever the order. */
  lemma {:induction false} RunKeepsScalesInRange(t: Transform, events: seq<Event>, minScale: real)
    requires ValidMinScale(minScale)
    requires ScalesInRange(t, minScale)
    requires PresetsInRange(events, minScale)
    ensures ScalesInRange(Run(t, events, minScale), minScale)
    decreases |events|
  {
    if events != [] {
      var t' := Step(t, events[0], minScale);
      assert ScalesInRange(t', minScale);
      assert PresetsInRange(events[1..], minScale) by {
        forall i | 0 <= i < |events[1..]| && events[1..][i].CenterForZoom?
          ensures minScale <= events[1..][i].zoom <= MaxScale
        {
          assert events[1..][i] == events[i + 1];
        }
      }
      RunKeepsScalesInRange(t', events[1..], minScale);
    }
  }

  /** The zoom view has no preset buttons: from its initial identity state,
      any sequence of its events keeps both scales in [1, 5]. */
  lemma ZoomableViewScalesInRange(events: seq<Event>)
    requires forall i :: 0 <= i < |events| ==> !events[i].CenterForZoom?
    ensures ScalesInRange(Run(Identity(), events, ZoomableViewMinScale), ZoomableViewMinScale)
  {
    RunKeepsScalesInRange(Identity(), events, ZoomableViewMinScale);
  }

  /** On the two screens, whose preset buttons offer 1x, 2x and 4x, both scales
      stay within that screen's bounds and so stay strictly positive. */
  lemma ScreenScalesInRange(events: seq<Event>, minScale: real)
    requires minScale == AdjustMinScale || minScale == MeasurementMinScale
    requires forall i :: 0 <= i < |events| && events[i].CenterForZoom? ==> IsPresetZoom(events[i].zoom)
    ensures ScalesInRange(Run(Identity(), events, minScale), minScale)
    ensures Run(Identity(), events, minScale).scale > 0.0
  {
    RunKeepsScalesInRange(Identity(), events, minScale);
  }

  /** Pan readings are cumulative: a later update replaces an earlier one of
      the same gesture instead of adding to it. */
  lemma PanUpdateSupersedes(t: Transform, dx1: real, dy1: real, dx2: real, dy2: real, minScale: real)
    requires minScale <= MaxScale
    ensures Step(Step(t, PanUpdate(dx1, dy1), minScale), PanUpdate(dx2, dy2), minScale)
         == Step(t, PanUpdate(dx2, dy2), minScale)
  {
  }

  /** Pinch readings are cumulative in the same way. */
  lemma PinchUpdateSupersedes(t: Transform, g1: real, g2: real, minScale: real)
    requires minScale <= MaxScale
    ensures Step(Step(t, PinchUpdate(g1), minScale), PinchUpdate(g2), minScale)
         == Step(t, PinchUpdate(g2), minScale)
  {
  }

  /** Committing twice is committing once. */
  lemma EndIdempotent(t: Transform, minScale: real)
    requires minScale <= MaxScale
    ensures Step(Step(t, PanEnd, minScale), PanEnd, minScale) == Step(t, PanEnd, minScale)
    ensures Step(Step(t, PinchEnd, minScale), PinchEnd, minScale) == Step(t, PinchEnd, minScale)
  {
  }

  /** Two complete pan gestures move the image by the sum of their movements,
      and leave the live and saved translations equal. */
  lemma {:induction false} PanGesturesAdd(t: Transform, dx1: real, dy1: real, dx2: real, dy2: real, minScale: real)
    requires minScale <= MaxScale
    ensures var r := Run(t, [PanUpdate(dx1, dy1), PanEnd, PanUpdate(dx2, dy2), PanEnd], minScale);
      r.translateX == t.savedTranslateX + dx1 + dx2 &&
      r.translateY == t.savedTranslateY + dy1 + dy2 &&
      r.savedTranslateX == r.translateX && r.savedTranslateY == r.translateY &&
      r.scale == t.scale && r.savedScale == t.savedScale
  {
    var evs := [PanUpdate(dx1, dy1), PanEnd, PanUpdate(dx2, dy2), PanEnd];
    var t1 := Step(t, evs[0], minScale);
    var t2 := Step(t1, evs[1], minScale);
    var t3 := Step(t2, evs[2], minScale);
    var t4 := Step(t3, evs[3], minScale);
    assert evs[1..][1..][1..][1..] == [];
    calc {
      Run(t, evs, minScale);
      Run(t1, evs[1..], minScale);
      Run(t2, evs[1..][1..], minScale);
      Run(t3, evs[1..][1..][1..], minScale);
      Run(t4, evs[1..][1..][1..][1..], minScale);
      t4;
    }
  }

  /** Two complete pinch gestures whose product stays within the bounds
      multiply the committed scale by both pinch factors. */
  lemma {:induction false} PinchGesturesMultiply(t: Transform, g1: real, g2: real, minScale: real)
    requires minScale <= MaxScale
    requires minScale <= t.savedScale * g1 <= MaxScale
    requires minScale <= t.savedScale * g1 * g2 <= MaxScale
    ensures var r := Run(t, [PinchUpdate(g1), PinchEnd, PinchUpdate(g2), PinchEnd], minScale);
      r.scale == r.savedScale == t.savedScale * g1 * g2 &&
      r.translateX == t.translateX && r.translateY == t.translateY
  {
    var evs := [PinchUpdate(g1), PinchEnd, PinchUpdate(g2), PinchEnd];
    var t1 := Step(t, evs[0], minScale);
    var t2 := Step(t1, evs[1], minScale);
    var t3 := Step(t2, evs[2], minScale);
    var t4 := Step(t3, evs[3], minScale);
    assert t2.savedScale == t.savedScale * g1;
    assert t3.scale == t.savedScale * g1 * g2;
    assert evs[1..][1..][1..][1..] == [];
    calc {
      Run(t, evs, minScale);
      Run(t1, evs[1..], minScale);
      Run(t2, evs[1..][1..], minScale);
      Run(t3, evs[1..][1..][1..], minScale);
      Run(t4, evs[1..][1..][1..][1..], minScale);
      t4;
    }
  }

  /** The six shared values of one screen, updated in place by its gesture
      handlers. `minScale` is the screen's lower pinch bound. */
  class ZoomPan {
    var scale: real
    var translateX: real
    var translateY: real
    var savedScale: real
    var savedTranslateX: real
    var savedTranslateY: real
    const minScale: real

    function State(): Transform
      reads this
    {
      Transform(scale, translateX, translateY, savedScale, savedTranslateX, savedTranslateY)
    }

    ghost predicate Valid() {
      ValidMinScale(minScale)
    }

    /** The shared values as first created. */
    constructor (minScale: real)
      requires ValidMinScale(minScale)
      ensures Valid() && this.minScale == minScale
      ensures State() == Identity()
    {
      scale := 1.0;
      savedScale := 1.0;
      translateX := 0.0;
      translateY := 0.0;
      savedTranslateX := 0.0;
      savedTranslateY := 0.0;
      this.minScale := minScale;
    }

    method OnPinchUpdate(gestureScale: real)
      requires Valid()
      modifies this
      ensures State() == Step(old(State()), PinchUpdate(gestureScale), minScale)
      ensures minScale <= scale <= MaxScale
    {
      var newScale := savedScale * gestureScale;
      scale := Clamp(newScale, minScale, MaxScale);
    }

    method OnPinchEnd()
      requires Valid()
      modifies this
      ensures State() == Step(old(State()), PinchEnd, minScale)
      ensures old(ScalesInRange(State(), minScale)) ==> ScalesInRange(State(), minScale)
    {
      savedScale := scale;
    }

    method OnPanUpdate(translationX: real, translationY: real)
      requires Valid()
      modifies this
      ensures State() == Step(old(State()), PanUpdate(translationX, translationY), minScale)
    {
      translateX := savedTranslateX + translationX;
      translateY := savedTranslateY + translationY;
    }

    method OnPanEnd()
      requires Valid()
      modifies this
      ensures State() == Step(old(State()), PanEnd, minScale)
    {
      savedTranslateX := translateX;
      savedTranslateY := translateY;
    }

    method CenterImageForZoom(newScale: real, screenWidth: real, screenHeight: real)
      requires Valid()
      modifies this
      ensures State() == Step(old(State()), CenterForZoom(newScale, screenWidth, screenHeight), minScale)
      ensures ScalesInRange(State(), minScale) <==> minScale <= newScale <= MaxScale
    {
      savedScale := newScale;
      scale := newScale;
      var newTranslateX := CenteringOffset(screenWidth, newScale);
      var newTranslateY := CenteringOffset(screenHeight, newScale);
      savedTranslateX := newTranslateX;
      savedTranslateY := newTranslateY;
      translateX := newTranslateX;
      translateY := newTranslateY;
    }

    method ResetZoom()
      requires Valid()
      modifies this
      ensures State() == Identity()
      ensures ScalesInRange(State(), minScale)
    {
      scale := 1.0;
      translateX := 0.0;
      translateY := 0.0;
      savedScale := 1.0;
      savedTranslateX := 0.0;
      savedTranslateY := 0.0;
    }
  }
}
