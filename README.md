# Pupillary-distance measurement: a Dafny model

This project models the measuring core of a React Native app that takes
optical measurements from a photo. The user holds an ID-1 card
(ISO/IEC 7810, 85.6 mm wide) next to their face. The flow has three steps:

- **Calibration.** On the calibration screen the user drags two handles onto
  the card's edges. The pixel distance between the handles divided by 85.6
  gives the pixels-per-millimetre factor.
- **Measurement.** On the measurement screen six handles mark the pupils, the
  nasal bridge and the frame. Three readouts turn the handle distances into
  millimetres, shown with two decimals.
- **Automatic path.** A face-landmark service measures the pupillary distance
  from keypoints 468 and 473 of a face mesh, after repacking the decoded
  RGBA image into RGB.

Both screens and a reusable zoom view keep a pan/zoom transform in six
shared values: the live scale and translation, and saved copies committed
when a gesture ends. Handles live in image space. They are drawn at
`p * scale + translate`. A drag delta is divided by the scale, so the handle
follows the finger.

Modules:

- `Geometry`: points, Euclidean distance and the image-to-screen projection.
  `Math.sqrt` is a parameter constrained by `IsSqrt`.
- `JsNumber`: values that may be absent or non-finite (`Num`), and
  `toFixed(2)` read back by `parseFloat` (`Round2`).
- `ViewTransform`: the gesture handlers as a pure `Step` over the six values,
  and the class `ZoomPan` whose methods update those values in place, each
  proved equal to `Step`.
- `DraggablePoint`: the drag update (function `Dragged`, class `Handle`) and
  the handle's animated style.
- `AdjustScreen`: default handle positions and the calibration outcome.
- `MeasurementScreen`: the readout, the entry guard, overlay lines and the
  record sent to the result screen.
- `MeasurementService`: the RGBA-to-RGB repack loop (a method over an
  `array`) and the checks and arithmetic of `processImage`.

Where the two screens write the centring translation differently, the model
uses one definition. The calibration screen writes `(W / 2) * (1 - s)` and the
measurement screen writes `c - c * s` with `c = W / 2`. These are equal over
the reals, so `ViewTransform.CenteringOffset` models both.

## Model

| member | source | states |
|---|---|---|
| Geometry.Sq | src/screens/AdjustScreen.js:131 | `Math.pow(v, 2)` is never negative |
| Geometry.SqZero | src/screens/AdjustScreen.js:131 | a square is zero exactly when its base is zero |
| Geometry.SquaredDistance | src/screens/AdjustScreen.js:130-132 | the sum of squared coordinate differences is non-negative, and zero exactly when the points coincide |
| Geometry.SqrtUnique | src/screens/AdjustScreen.js:130-132 | any function meeting the square-root contract returns `r` on `r * r` for `r >= 0` |
| Geometry.Distance | src/screens/MeasurementScreen.js:37 | the Euclidean distance is non-negative, its square is the squared distance, and it is zero exactly when the points coincide |
| Geometry.DistanceIs | src/screens/AdjustScreen.js:130-132 | points whose squared distance is `r * r`, with `r >= 0`, are exactly `r` apart |
| Geometry.DistanceAlongAxis | src/screens/AdjustScreen.js:101-104 | two points at the same height are as far apart as the difference of their abscissae, as all default handle pairs are |
| Geometry.DistanceSymmetric | src/screens/AdjustScreen.js:130-132 | distance does not depend on the order of the endpoints |
| Geometry.DistanceTranslationInvariant | src/screens/MeasurementScreen.js:37 | moving both endpoints by one vector leaves the distance unchanged |
| Geometry.ToScreen | src/components/DraggablePoint.js:60-61 | the screen point minus the translation is the image point times the scale |
| Geometry.ToScreenInjective | src/components/DraggablePoint.js:60-61 | with a positive scale, distinct image points are drawn at distinct screen points |
| Geometry.ToScreenScalesDistance | src/screens/MeasurementScreen.js:161-167 | squared screen distance is the squared image distance times the squared scale, whatever the pan |
| JsNumber.IsPositive | src/screens/MeasurementScreen.js:36 | a factor is usable exactly when the readout's guard (falsy, not above zero, or not finite) lets it through, and exactly when the entry and calibration guard (not finite, or not above zero; src/screens/MeasurementScreen.js:47, src/screens/AdjustScreen.js:135) lets it through |
| JsNumber.Coalesce | src/components/DraggablePoint.js:41-45 | `n ?? d` keeps any present value, NaN and infinities included, and replaces only an absent one by `d` |
| JsNumber.RoundHalfUp | src/screens/MeasurementScreen.js:38 | for a non-negative value, the result has two decimals, is within half a hundredth of it, and ties go up |
| JsNumber.Round2 | src/screens/MeasurementScreen.js:38 | the two-decimal text read back is within half a hundredth of the value, keeps its sign, has at most two decimals, and a tie goes away from zero |
| JsNumber.Round2Exact | src/screens/MeasurementScreen.js:38 | a value that already has two decimals is printed unchanged |
| JsNumber.Round2Negate | src/screens/MeasurementScreen.js:38 | rounding is symmetric about zero, as `toFixed` rounds the magnitude |
| ViewTransform.Clamp | src/screens/AdjustScreen.js:84 | `Math.max(lo, Math.min(v, hi))` lies in `[lo, hi]`, is `v` inside it and the violated bound outside it |
| ViewTransform.Identity | src/components/ZoomableView.js:16-21 | the initial values have nothing pending (live equals saved), draw every image point where it is, and lie within every screen's pinch bounds |
| ViewTransform.CenteringOffset | src/screens/AdjustScreen.js:50-51 | the centring translation keeps the middle of the extent fixed under the zoom; the measurement screen's `c - c * s` (src/screens/MeasurementScreen.js:65-68) is the same value |
| ViewTransform.Step | src/screens/MeasurementScreen.js:63-121 | pinch update: only the live scale changes, to `savedScale * e.scale` clamped to the screen's bounds. Pinch end: copies the live scale to the saved one and nothing else. Pan update: live translation = saved translation + cumulative movement, scale untouched. Pan end: commits the translation only. Preset zoom: live equals saved and the screen centre projects to itself. Reset: identity, live and saved |
| ViewTransform.Run | src/components/ZoomableView.js:24-69 | the handlers applied in delivery order: an empty stream changes nothing, and any stream that ends with a reset ends at the identity, whatever came before |
| ViewTransform.RunConcat | src/components/ZoomableView.js:24-69 | the handlers keep no state besides the six values: two streams run one after the other act as their concatenation |
| ViewTransform.RunKeepsScalesInRange | src/components/ZoomableView.js:16-69 | from scales within the bounds, any sequence of pinch, pan, end and reset events, plus preset zooms within the bounds, keeps both scales within the bounds |
| ViewTransform.ZoomableViewScalesInRange | src/components/ZoomableView.js:16-69 | from the initial state, the zoom view's scale and saved scale stay within [1, 5] after any event sequence |
| ViewTransform.ScreenScalesInRange | src/screens/MeasurementScreen.js:316-333 | the 1x/2x/4x buttons lie within both screens' bounds ([0.5, 5] on the calibration screen, [1, 5] on the measurement screen), so both scales stay in range and the live scale stays positive |
| ViewTransform.PanUpdateSupersedes | src/screens/AdjustScreen.js:68-72 | pan readings are cumulative: a later update of the same gesture replaces an earlier one |
| ViewTransform.PinchUpdateSupersedes | src/screens/AdjustScreen.js:81-85 | pinch readings are cumulative in the same way |
| ViewTransform.EndIdempotent | src/screens/AdjustScreen.js:73-89 | committing a pan or a pinch twice is the same as committing it once |
| ViewTransform.PanGesturesAdd | src/components/ZoomableView.js:41-49 | two complete pan gestures move the image by the sum of their movements and leave live and saved translations equal |
| ViewTransform.PinchGesturesMultiply | src/components/ZoomableView.js:26-34 | two complete in-range pinches multiply the committed scale by both factors and leave the translation alone |
| ViewTransform.ZoomPan.constructor | src/components/ZoomableView.js:16-21 | the six shared values start at the identity: scales 1, translations 0 |
| ViewTransform.ZoomPan.OnPinchUpdate | src/components/ZoomableView.js:26-30 | the new state is `Step` of the old state on the pinch update, and the live scale is within the bounds |
| ViewTransform.ZoomPan.OnPinchEnd | src/components/ZoomableView.js:31-34 | the new state is `Step` of the old state on pinch end, and in-range scales stay in range |
| ViewTransform.ZoomPan.OnPanUpdate | src/components/ZoomableView.js:41-44 | the new state is `Step` of the old state on the pan update |
| ViewTransform.ZoomPan.OnPanEnd | src/components/ZoomableView.js:45-49 | the new state is `Step` of the old state on pan end |
| ViewTransform.ZoomPan.CenterImageForZoom | src/screens/AdjustScreen.js:45-57 | the new state is `Step` of the old state on the preset zoom, and the scales are in range exactly when the zoom is |
| ViewTransform.ZoomPan.ResetZoom | src/components/ZoomableView.js:61-69 | all six values return to the identity, which is within the bounds |
| DraggablePoint.Dragged | src/components/DraggablePoint.js:20-32 | a disabled gesture or a scale that is not a positive finite number leaves the point in place; otherwise the image-space displacement times the scale is the screen delta |
| DraggablePoint.DragFollowsFinger | src/components/DraggablePoint.js:22-31 | with a positive scale, one drag event moves the drawn handle by exactly the finger's screen delta |
| DraggablePoint.DragAlongFollowsFinger | src/components/DraggablePoint.js:22-31 | over a whole gesture at a fixed positive scale, the drawn handle moves by the total finger movement |
| DraggablePoint.DisabledNeverMoves | src/components/DraggablePoint.js:20-21 | a disabled handle stays put under any sequence of drag events |
| DraggablePoint.Handle.constructor | src/components/DraggablePoint.js:8-10 | a handle starts at the position held by the two shared values the screen hands it |
| DraggablePoint.Handle.OnChange | src/components/DraggablePoint.js:22-31 | the in-place `x += changeX / scale` update yields `Dragged` of the old position |
| DraggablePoint.AnimatedStyle | src/components/DraggablePoint.js:38-67 | the handle is dimmed exactly when some input is non-finite; otherwise its opacity is 1 when enabled and 0.5 when disabled, and it sits at the projection of its image position, with an absent input taking its default (scale 1, translation and position 0) |
| DraggablePoint.AllMissingDefaults | src/components/DraggablePoint.js:41-45 | with every input absent, the handle is drawn at the screen origin |
| AdjustScreen.DefaultPointA | src/screens/AdjustScreen.js:101-104 | handle A starts level with handle B, the two symmetric about the screen centre and 200 px apart |
| AdjustScreen.DefaultPointB | src/screens/AdjustScreen.js:103-104 | handle B starts on the horizontal line through the screen centre, right of the centre |
| AdjustScreen.ProceedToMeasurement | src/screens/AdjustScreen.js:127-144 | navigation happens exactly when the handles differ. The alert carries the fixed title and message. The factor passed on is strictly positive, and the factor times 85.6 is the handle distance |
| AdjustScreen.CoincidentPointsFail | src/screens/AdjustScreen.js:135-141 | confirming with coincident handles always raises the alert |
| AdjustScreen.CalibrationSymmetric | src/screens/AdjustScreen.js:130-133 | swapping the handles gives the same outcome |
| AdjustScreen.CalibrationTranslationInvariant | src/screens/AdjustScreen.js:130-133 | moving both handles by one vector gives the same outcome |
| AdjustScreen.DefaultCalibration | src/screens/AdjustScreen.js:101-104 | the untouched default handles are 200 px apart and yield 200 / 85.6 |
| MeasurementScreen.CalculateDistanceMm | src/screens/MeasurementScreen.js:34-39 | an absent, non-finite, zero or negative factor gives the sentinel 0.00. Otherwise the result is the two-decimal rounding of distance / factor, within half a hundredth of it, and never negative |
| MeasurementScreen.CalculateDistanceSymmetric | src/screens/MeasurementScreen.js:37-38 | the readout does not depend on the order of the endpoints |
| MeasurementScreen.CalculateDistanceTranslationInvariant | src/screens/MeasurementScreen.js:37-38 | moving both endpoints by one vector leaves the readout unchanged |
| MeasurementScreen.SentinelAmbiguous | src/screens/MeasurementScreen.js:36 | coincident handles with a valid factor also read 0.00, the same as the invalid-factor sentinel |
| MeasurementScreen.EnterScreen | src/screens/MeasurementScreen.js:47-54 | the screen renders exactly when the factor is present, finite and positive; otherwise it raises the fixed alert whose button goes back |
| MeasurementScreen.CalibrationPassesEntry | src/screens/MeasurementScreen.js:47-54 | a factor from a successful calibration always passes the entry guard, so no readout takes the sentinel path |
| MeasurementScreen.DefaultLandmarks | src/screens/MeasurementScreen.js:127-138 | each handle pair starts level and symmetric about the vertical centre line, the pupils above the nasal bridge, with spans of 100, 40 and 200 px, and the frame pair where the calibration handles start |
| MeasurementScreen.LiveReadouts | src/screens/MeasurementScreen.js:140-151 | with an unusable factor all three texts show 0.00; otherwise each is its handle pair's distance in millimetres, to two decimals and within half a hundredth |
| MeasurementScreen.ProceedToResults | src/screens/MeasurementScreen.js:173-204 | navigates with the same image and three non-negative measurements |
| MeasurementScreen.SavedEqualsDisplayed | src/screens/MeasurementScreen.js:173-202 | the record sent to the result screen equals the live readouts for the same handle positions |
| MeasurementScreen.LineProps | src/screens/MeasurementScreen.js:161-167 | both ends of an overlay line are their handle's image point projected through the live transform |
| MeasurementScreen.LineEndsAtHandles | src/screens/MeasurementScreen.js:161-167 | each line end is exactly where the handle for that point is drawn, at any zoom and pan, enabled or not |
| MeasurementScreen.DefaultScenario | src/screens/MeasurementScreen.js:127-138 | calibrating on the default card handles and finishing with the default measurement handles records 42.80, 17.12 and 85.60 mm |
| MeasurementService.ByteAt | src/services/measurementService.js:33-35 | a read within the data is the byte there; a read past its end stores 0 |
| MeasurementService.PixelCount | src/services/measurementService.js:32 | the loop runs once per started group of four bytes |
| MeasurementService.Repacked | src/services/measurementService.js:30-36 | the buffer has the requested size. Its first `3 * PixelCount` positions hold the colour channels in order, and the rest stay zero |
| MeasurementService.SourceByteOfPixel | src/services/measurementService.js:33-35 | buffer position `3m + c` takes data byte `4m + c`, for c in 0..2 |
| MeasurementService.ExpectedBuffer | src/services/measurementService.js:30-36 | the result of the loop, pixel by pixel: each pixel the loop reaches has its colour channels at `3m + c` where they fit, and the rest is zero |
| MeasurementService.ExpectedPixel | src/services/measurementService.js:33-35 | in such a buffer, positions `3m`, `3m + 1` and `3m + 2` hold data bytes `4m`, `4m + 1` and `4m + 2` |
| MeasurementService.RepackedUnique | src/services/measurementService.js:30-36 | any buffer described pixel by pixel in this way equals `Repacked` |
| MeasurementService.LoopExit | src/services/measurementService.js:32-36 | when the loop stops, after three writes per started pixel, the buffer is `Repacked` |
| MeasurementService.Store | src/services/measurementService.js:33 | a typed-array store changes only the addressed byte, and a store past the end changes nothing |
| MeasurementService.CopyPixel | src/services/measurementService.js:33-35 | one iteration's three stores extend the written prefix of the buffer by three expected bytes |
| MeasurementService.ImageToRgb | src/services/measurementService.js:30-36 | the loop over the zeroed `width * height * 3` buffer leaves exactly `Repacked` in it, and the final `offset` is three writes per started pixel; the buffer is newly allocated |
| MeasurementService.WholeImageFillsBuffer | src/services/measurementService.js:30-36 | with `data.length == 4 * w * h`, the final `offset` is the buffer length: no write is dropped and none is missing |
| MeasurementService.ChannelMap | src/services/measurementService.js:32-36 | with `data.length == 4 * w * h`, channel c of pixel k of the buffer is channel c of pixel k of the data, for c in 0..2 and every pixel |
| MeasurementService.AlphaIgnored | src/services/measurementService.js:32-36 | decodings that differ only in their alpha bytes give the same buffer |
| MeasurementService.HasPupils | src/services/measurementService.js:47-58 | a face was found and both keypoint 473 and keypoint 468 exist; the one length test covers both lookups |
| MeasurementService.ProcessImage | src/services/measurementService.js:41-77 | a thrown error comes back as `{ error: message }`. Missing or empty predictions give "Nenhum rosto detectado.", and a face without keypoint 473 gives the pupil-points error. Success happens exactly when both pupils exist. A zero factor gives a non-finite text; any other factor gives distance / factor to two decimals |
| MeasurementService.AgreesWithManualReadout | src/services/measurementService.js:60-64 | with a positive factor, the automatic result equals the manual readout for handles on the two pupils |
| MeasurementService.NegativeFactorGivesNegativeDistance | src/services/measurementService.js:64 | the divisor is not guarded: a factor of -1 turns pupils 100 px apart into -100.00, where `calculateDistanceMm` shows 0.00 |

## Left out

- Image and gesture I/O is not modelled:
  - TensorFlow loading and inference, the file read, base64 decoding and
    `jpeg.decode` (src/services/measurementService.js:10-28, 43-46, 66-67).
  - The detector's answer is a parameter (`Detection`) and the decoded bytes
    are an input sequence.
  - The final `tf.tensor3d` wrapping of the buffer is not modelled.
- Navigation and alerts are outcome values (`Outcome`, `Entry`, `Navigation`).
  The navigator, `goBack` and the alert UI are not modelled.
- Rendering, styles, SVG and the result, home and camera screens are not
  modelled. They display values and do not compute them.
- Concurrency and animation are not modelled: UI-thread worklets,
  `Gesture.Simultaneous`, `runOnJS` and `withTiming`. Events form one
  sequential stream, and an animation is the immediate assignment of its
  target.
- Floating point: numbers are reals.
  - `NaN` and the infinities appear only where the code tests for them, as
    `JsNumber.Num`.
  - `toFixed(2)` is modelled as exact rounding of the real value. Binary
    representation errors and the exponent notation above 1e21 are not
    modelled.
  - The three readout texts are modelled as the numbers they print; the
    "DNP: … mm" string templates are not modelled.
- `Math.sqrt` is a parameter. It is constrained to return the non-negative
  square root, because Dafny has no real square root.
- ViewTransform.ZoomPan: the `.enabled(mode === 'pan')` switch on the screens'
  transform gestures is not modelled. Every handler call is taken as
  delivered. The `enabled` flag is modelled for the handles, where it also
  changes the drawing.
- MeasurementService.ProcessImage: the factor is a finite real.
  - An absent factor is not modelled. It would give `NaN`.
  - An infinite factor is not modelled. It would give 0.00.
  - For a non-zero factor, the contract states the result to within half a
    hundredth of distance / factor. The exact two-decimal value is stated for
    positive factors by `AgreesWithManualReadout`, and for the example
    negative factor by `NegativeFactorGivesNegativeDistance`.
- `initializeTensorFlow`'s load-once guard is not modelled. It is model
  loading, not measurement.
