/** The measurement screen: six handles in image space (two pupils, two sides
    of the nasal bridge, two sides of the frame), three live readouts in
    millimetres, the overlay lines between the handle pairs, and the record
    handed to the result screen. */
module MeasurementScreen {
  import opened Geometry
  import opened JsNumber
  import ViewTransform
  import DraggablePoint
  import AdjustScreen

  /** `calculateDistanceMm`: the Euclidean distance between two image points
      divided by the factor and printed with two decimals, or the sentinel
      "0.00" when the factor is absent, non-finite, zero or negative. The
      number is the value of that text, as `parseFloat` reads it back. */
  function CalculateDistanceMm(p1: Point, p2: Point, pixelsPerMm: Num, sqrt: real -> real): (r: real)
    requires IsSqrt(sqrt)
    ensures !IsPositive(pixelsPerMm) ==> r == 0.0
    ensures IsPositive(pixelsPerMm) ==> r == Round2(Distance(p1, p2, sqrt) / pixelsPerMm.value)
    ensures r >= 0.0 && IsHundredths(r)
    ensures IsPositive(pixelsPerMm) ==> -0.005 <= r - Distance(p1, p2, sqrt) / pixelsPerMm.value <= 0.005
  {
    if !IsPositive(pixelsPerMm) then 0.0
    else
      var dist := Distance(p1, p2, sqrt);
      Round2(dist / pixelsPerMm.value)
  }

  /** The readout does not depend on the order of the endpoints. */
  lemma CalculateDistanceSymmetric(p1: Point, p2: Point, pixelsPerMm: Num, sqrt: real -> real)
    requires IsSqrt(sqrt)
    ensures CalculateDistanceMm(p1, p2, pixelsPerMm, sqrt) == CalculateDistanceMm(p2, p1, pixelsPerMm, sqrt)
  {
    DistanceSymmetric(p1, p2, sqrt);
  }

  /** Moving both endpoints by the same vector leaves the readout unchanged. */
  lemma CalculateDistanceTranslationInvariant(p1: Point, p2: Point, dx: real, dy: real, pixelsPerMm: Num, sqrt: real -> real)
    requires IsSqrt(sqrt)
    ensures CalculateDistanceMm(Translate(p1, dx, dy), Translate(p2, dx, dy), pixelsPerMm, sqrt)
         == CalculateDistanceMm(p1, p2, pixelsPerMm, sqrt)
  {
    DistanceTranslationInvariant(p1, p2, dx, dy, sqrt);
  }

  /** The sentinel is ambiguous: with a valid factor, two coincident handles
      also read "0.00", so the text cannot tell an invalid factor apart. */
  lemma SentinelAmbiguous(p: Point, pixelsPerMm: real, sqrt: real -> real)
    requires IsSqrt(sqrt)
    requires pixelsPerMm > 0.0
    ensures CalculateDistanceMm(p, p, Finite(pixelsPerMm), sqrt) == CalculateDistanceMm(p, p, Missing, sqrt) == 0.0
  {
    Round2Exact(0);
  }

  /** What entering the screen leads to. */
  datatype Entry = AlertAndGoBack(title: string, message: string) | Render

  const EntryErrorTitle: string := "Erro de Calibração"
  const EntryErrorMessage: string := "O fator de calibração é inválido. Por favor, tente novamente."

  /** The entry guard: a factor that is absent, non-finite, zero or negative
      raises an alert whose button goes back, and nothing is rendered. */
  function EnterScreen(pixelsPerMm: Num): (r: Entry)
    ensures r.Render? <==> IsPositive(pixelsPerMm)
    ensures r.AlertAndGoBack? ==> r == AlertAndGoBack(EntryErrorTitle, EntryErrorMessage)
  {
    if !pixelsPerMm.Finite? || pixelsPerMm.value <= 0.0 then
      AlertAndGoBack(EntryErrorTitle, EntryErrorMessage)
    else
      Render
  }

  /** A factor produced by a successful calibration always passes the entry
      guard, so on a rendered screen no readout takes the sentinel path. */
  lemma CalibrationPassesEntry(imageUri: string, a: Point, b: Point, p1: Point, p2: Point, sqrt: real -> real)
    requires IsSqrt(sqrt)
    requires AdjustScreen.ProceedToMeasurement(imageUri, a, b, sqrt).NavigateToMeasurement?
    ensures var k := AdjustScreen.ProceedToMeasurement(imageUri, a, b, sqrt).pixelsPerMm;
      EnterScreen(Finite(k)).Render? &&
      CalculateDistanceMm(p1, p2, Finite(k), sqrt) == Round2(Distance(p1, p2, sqrt) / k)
  {
  }

  /** The six handles' image-space positions. */
  datatype Landmarks = Landmarks(
    pupilL: Point, pupilR: Point,
    nasalL: Point, nasalR: Point,
    frameL: Point, frameR: Point)

  /** Where the handles start, relative to the screen centre. */
  function DefaultLandmarks(screenWidth: real, screenHeight: real): (r: Landmarks)
    // each pair is level and symmetric about the vertical line through the centre
    ensures r.pupilL.y == r.pupilR.y && r.nasalL.y == r.nasalR.y && r.frameL.y == r.frameR.y
    ensures r.pupilL.x + r.pupilR.x == screenWidth && r.nasalL.x + r.nasalR.x == screenWidth
         && r.frameL.x + r.frameR.x == screenWidth
    // the pupils sit above the nasal bridge, and the frame pair on the centre line
    ensures r.pupilL.y < r.nasalL.y && r.frameL.y == screenHeight / 2.0
    // spans of 100, 40 and 200 px
    ensures r.pupilR.x - r.pupilL.x == 100.0 && r.nasalR.x - r.nasalL.x == 40.0 && r.frameR.x - r.frameL.x == 200.0
    // the frame handles start where the calibration handles start
    ensures r.frameL == AdjustScreen.DefaultPointA(screenWidth, screenHeight)
         && r.frameR == AdjustScreen.DefaultPointB(screenWidth, screenHeight)
  {
    var cx, cy := screenWidth / 2.0, screenHeight / 2.0;
    Landmarks(
      Point(cx - 50.0, cy - 30.0), Point(cx + 50.0, cy - 30.0),
      Point(cx - 20.0, cy + 20.0), Point(cx + 20.0, cy + 20.0),
      Point(cx - 100.0, cy), Point(cx + 100.0, cy))
  }

  /** The three measurements, in millimetres. */
  datatype Measurements = Measurements(pupillaryDistance: real, nasalBridge: real, frameWidth: real)

  /** The numbers shown by the live texts "DNP", "Ponte Nasal" and "Largura Total". */
  function LiveReadouts(lm: Landmarks, pixelsPerMm: Num, sqrt: real -> real): (r: Measurements)
    requires IsSqrt(sqrt)
    // an unusable factor shows "0.00" in all three texts
    ensures !IsPositive(pixelsPerMm) ==> r == Measurements(0.0, 0.0, 0.0)
    // otherwise each text is its pair's distance in millimetres to two decimals
    ensures IsPositive(pixelsPerMm) ==>
      IsHundredths(r.pupillaryDistance) && IsHundredths(r.nasalBridge) && IsHundredths(r.frameWidth)
    ensures IsPositive(pixelsPerMm) ==>
      -0.005 <= r.pupillaryDistance - Distance(lm.pupilL, lm.pupilR, sqrt) / pixelsPerMm.value <= 0.005 &&
      -0.005 <= r.nasalBridge - Distance(lm.nasalL, lm.nasalR, sqrt) / pixelsPerMm.value <= 0.005 &&
      -0.005 <= r.frameWidth - Distance(lm.frameL, lm.frameR, sqrt) / pixelsPerMm.value <= 0.005
  {
    Measurements(
      CalculateDistanceMm(lm.pupilL, lm.pupilR, pixelsPerMm, sqrt),
      CalculateDistanceMm(lm.nasalL, lm.nasalR, pixelsPerMm, sqrt),
      CalculateDistanceMm(lm.frameL, lm.frameR, pixelsPerMm, sqrt))
  }

  /** Navigation to the result screen with the image and the record. */
  datatype Navigation = NavigateToResult(imageUri: string, measurements: Measurements)

  /** `proceedToResults`: each field is `parseFloat` of a fresh
      `calculateDistanceMm` call on the same pair of handles. */
  function ProceedToResults(imageUri: string, lm: Landmarks, pixelsPerMm: Num, sqrt: real -> real): (r: Navigation)
    requires IsSqrt(sqrt)
    ensures r.imageUri == imageUri
    ensures r.measurements.pupillaryDistance >= 0.0 && r.measurements.nasalBridge >= 0.0 && r.measurements.frameWidth >= 0.0
  {
    var pupillaryDistance := CalculateDistanceMm(lm.pupilL, lm.pupilR, pixelsPerMm, sqrt);
    var nasalBridge := CalculateDistanceMm(lm.nasalL, lm.nasalR, pixelsPerMm, sqrt);
    var frameWidth := CalculateDistanceMm(lm.frameL, lm.frameR, pixelsPerMm, sqrt);
    NavigateToResult(imageUri, Measurements(pupillaryDistance, nasalBridge, frameWidth))
  }

  /** What is saved is what was displayed: the record handed on equals the
      live readouts for the same handle positions. */
  lemma SavedEqualsDisplayed(imageUri: string, lm: Landmarks, pixelsPerMm: Num, sqrt: real -> real)
    requires IsSqrt(sqrt)
    ensures ProceedToResults(imageUri, lm, pixelsPerMm, sqrt).measurements == LiveReadouts(lm, pixelsPerMm, sqrt)
  {
  }

  /** The end points of one overlay line, in screen space. */
  datatype Line = Line(x1: real, y1: real, x2: real, y2: real)

  /** `createLineProps`: both handles projected through the live transform. */
  function LineProps(p1: Point, p2: Point, t: ViewTransform.Transform): (r: Line)
    ensures Point(r.x1, r.y1) == ToScreen(p1, t.scale, t.translateX, t.translateY)
    ensures Point(r.x2, r.y2) == ToScreen(p2, t.scale, t.translateX, t.translateY)
  {
    Line(p1.x * t.scale + t.translateX, p1.y * t.scale + t.translateY,
         p2.x * t.scale + t.translateX, p2.y * t.scale + t.translateY)
  }

  /** Lines stay attached to their handles: each end of an overlay line is
      exactly where the handle for that point is drawn, whatever the zoom
      and pan, and whether or not the handles are enabled. */
  lemma LineEndsAtHandles(p1: Point, p2: Point, t: ViewTransform.Transform, enabled: bool)
    ensures var line := LineProps(p1, p2, t);
      var s1 := DraggablePoint.AnimatedStyle(Finite(t.scale), Finite(t.translateX), Finite(t.translateY), Finite(p1.x), Finite(p1.y), enabled);
      var s2 := DraggablePoint.AnimatedStyle(Finite(t.scale), Finite(t.translateX), Finite(t.translateY), Finite(p2.x), Finite(p2.y), enabled);
      s1.Placed? && s2.Placed? &&
      line.x1 == s1.translateX && line.y1 == s1.translateY &&
      line.x2 == s2.translateX && line.y2 == s2.translateY
  {
  }

  /** End to end from the default handles: calibrating on the untouched card
      handles and then finishing with the untouched measurement handles
      records a pupillary distance of 42.80 mm, a nasal bridge of 17.12 mm
      and a frame width of 85.60 mm. */
  lemma {:induction false} DefaultScenario(imageUri: string, screenWidth: real, screenHeight: real, sqrt: real -> real)
    requires IsSqrt(sqrt)
    ensures var cal := AdjustScreen.ProceedToMeasurement(imageUri,
        AdjustScreen.DefaultPointA(screenWidth, screenHeight), AdjustScreen.DefaultPointB(screenWidth, screenHeight), sqrt);
      cal.NavigateToMeasurement? &&
      ProceedToResults(imageUri, DefaultLandmarks(screenWidth, screenHeight), Finite(cal.pixelsPerMm), sqrt).measurements
        == Measurements(42.8, 17.12, 85.6)
  {
    AdjustScreen.DefaultCalibration(imageUri, screenWidth, screenHeight, sqrt);
    var k := 200.0 / AdjustScreen.CardWidthMm;
    var lm := DefaultLandmarks(screenWidth, screenHeight);
    DistanceAlongAxis(lm.pupilL, lm.pupilR, sqrt);
    DistanceAlongAxis(lm.nasalL, lm.nasalR, sqrt);
    DistanceAlongAxis(lm.frameL, lm.frameR, sqrt);
    assert 100.0 / k == 4280 as real / 100.0;
    assert 40.0 / k == 1712 as real / 100.0;
    assert 200.0 / k == 8560 as real / 100.0;
    Round2Exact(4280);
    Round2Exact(1712);
    Round2Exact(8560);
  }
}
