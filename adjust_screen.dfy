/** The calibration screen: the user drags two handles onto the ends of the
    width of a card of the ID-1 format (ISO/IEC 7810, 85.6 mm wide), and the
    pixel distance between them fixes the pixels-per-millimetre factor handed
    to the measurement screen. */
module AdjustScreen {
  import opened Geometry

  /** Width of an ID-1 card in millimetres (ISO/IEC 7810). */
  const CardWidthMm: real := 85.6

  /** Horizontal offset of each default handle from the screen centre, in pixels. */
  const DefaultHalfSpan: real := 100.0

  /** Where handle A starts: 100 px left of the screen centre. */
  function DefaultPointA(screenWidth: real, screenHeight: real): (r: Point)
    // level with handle B, and the two are symmetric about the screen centre
    ensures r.y == DefaultPointB(screenWidth, screenHeight).y
    ensures r.x + DefaultPointB(screenWidth, screenHeight).x == screenWidth
    ensures DefaultPointB(screenWidth, screenHeight).x - r.x == 2.0 * DefaultHalfSpan
  {
    Point(screenWidth / 2.0 - DefaultHalfSpan, screenHeight / 2.0)
  }

  /** Where handle B starts: 100 px right of the screen centre. */
  function DefaultPointB(screenWidth: real, screenHeight: real): (r: Point)
    // on the horizontal line through the screen centre, right of the centre
    ensures r.y == screenHeight / 2.0 && r.x > screenWidth / 2.0
  {
    Point(screenWidth / 2.0 + DefaultHalfSpan, screenHeight / 2.0)
  }

  /** What pressing "Confirmar Calibração" leads to: an alert that keeps the
      user on this screen, or navigation to the measurement screen. */
  datatype Outcome =
    | AlertCalibrationFailed(title: string, message: string)
    | NavigateToMeasurement(imageUri: string, pixelsPerMm: real)

  const FailureTitle: string := "Calibração falhou"
  const FailureMessage: string := "Tente posicionar os pontos novamente nos cantos do cartão."

  /** `proceedToMeasurement`: the distance between the handles divided by the
      card width. A factor that is not strictly positive raises the alert and
      does not navigate; over the reals that happens exactly when the handles
      coincide. */
  function ProceedToMeasurement(imageUri: string, a: Point, b: Point, sqrt: real -> real): (r: Outcome)
    requires IsSqrt(sqrt)
    ensures r.NavigateToMeasurement? <==> a != b
    ensures r.AlertCalibrationFailed? ==> r == AlertCalibrationFailed(FailureTitle, FailureMessage)
    ensures r.NavigateToMeasurement? ==>
      r.imageUri == imageUri && r.pixelsPerMm > 0.0 &&
      r.pixelsPerMm * CardWidthMm == Distance(a, b, sqrt)
  {
    var distanceInPixels := Distance(a, b, sqrt);
    var pixelsPerMm := distanceInPixels / CardWidthMm;
    if pixelsPerMm <= 0.0 then
      AlertCalibrationFailed(FailureTitle, FailureMessage)
    else
      NavigateToMeasurement(imageUri, pixelsPerMm)
  }

  /** Confirming without moving the handles apart always fails. */
  lemma CoincidentPointsFail(imageUri: string, a: Point, sqrt: real -> real)
    requires IsSqrt(sqrt)
    ensures ProceedToMeasurement(imageUri, a, a, sqrt).AlertCalibrationFailed?
  {
  }

  /** Swapping the two handles gives the same factor. */
  lemma CalibrationSymmetric(imageUri: string, a: Point, b: Point, sqrt: real -> real)
    requires IsSqrt(sqrt)
    ensures ProceedToMeasurement(imageUri, a, b, sqrt) == ProceedToMeasurement(imageUri, b, a, sqrt)
  {
    DistanceSymmetric(a, b, sqrt);
  }

  /** Moving both handles by the same vector gives the same factor. */
  lemma CalibrationTranslationInvariant(imageUri: string, a: Point, b: Point, dx: real, dy: real, sqrt: real -> real)
    requires IsSqrt(sqrt)
    ensures ProceedToMeasurement(imageUri, Translate(a, dx, dy), Translate(b, dx, dy), sqrt)
         == ProceedToMeasurement(imageUri, a, b, sqrt)
  {
    DistanceTranslationInvariant(a, b, dx, dy, sqrt);
  }

  /** The default handles are 200 px apart on one horizontal line, so
      confirming them untouched yields 200 / 85.6 pixels per millimetre. */
  lemma {:induction false} DefaultCalibration(imageUri: string, screenWidth: real, screenHeight: real, sqrt: real -> real)
    requires IsSqrt(sqrt)
    ensures ProceedToMeasurement(imageUri, DefaultPointA(screenWidth, screenHeight), DefaultPointB(screenWidth, screenHeight), sqrt)
         == NavigateToMeasurement(imageUri, 200.0 / CardWidthMm)
  {
    var a, b := DefaultPointA(screenWidth, screenHeight), DefaultPointB(screenWidth, screenHeight);
    DistanceAlongAxis(a, b, sqrt);
    assert Distance(a, b, sqrt) == 200.0;
  }
}
