/** The automatic measurement service: the repack of a decoded RGBA image
    into the RGB buffer handed to the face-landmark model, and the
    validation and pupillary-distance arithmetic applied to the model's
    answer. The model, the file read and the JPEG decoder are outside this
    module: their results arrive as parameters. */
module MeasurementService {
  import opened Geometry
  import opened JsNumber
  import MeasurementScreen

  /** One element of a `Uint8Array`. */
  newtype byte = b: int | 0 <= b < 256

  /** `data[i]` as stored into a `Uint8Array`: a read past the end yields
      `undefined`, which the store converts to 0. */
  function ByteAt(data: seq<byte>, i: nat): (r: byte)
    ensures i < |data| ==> r == data[i]
    ensures i >= |data| ==> r == 0
  {
    if i < |data| then data[i] else 0
  }

  /** Number of iterations of the repack loop, which steps `i` by 4 while
      `i < data.length`: one per started group of four bytes. */
  function PixelCount(dataLength: nat): (n: nat)
    ensures 4 * n >= dataLength && 4 * n < dataLength + 4
  {
    (dataLength + 3) / 4
  }

  /** Channel `c` (0 red, 1 green, 2 blue, 3 alpha) of pixel `k` of the RGBA data. */
  function RgbaAt(data: seq<byte>, k: nat, c: nat): byte {
    ByteAt(data, 4 * k + c)
  }

  /** Channel `c` (0 red, 1 green, 2 blue) of pixel `k` of an RGB buffer. */
  function RgbAt(buffer: seq<byte>, k: nat, c: nat): byte {
    ByteAt(buffer, 3 * k + c)
  }

  /** The byte the repack loop means for position `j` of the RGB buffer:
      channel `j % 3` of pixel `j / 3`. */
  function SourceByte(data: seq<byte>, j: nat): byte {
    RgbaAt(data, j / 3, j % 3)
  }

  /** The contents of the RGB buffer of `size` bytes after the loop: the
      first `3 * PixelCount(|data|)` positions hold the colour channels of
      the data, in order; the rest keep the zero the buffer was created
      with; positions the loop reaches beyond `size` are dropped. */
  function Repacked(data: seq<byte>, size: nat): (r: seq<byte>)
    ensures |r| == size
    ensures forall j :: 0 <= j < size && j < 3 * PixelCount(|data|) ==> r[j] == SourceByte(data, j)
    ensures forall j :: 3 * PixelCount(|data|) <= j < size ==> r[j] == 0
  {
    seq(size, j requires 0 <= j < size => if j < 3 * PixelCount(|data|) then SourceByte(data, j) else 0)
  }

  /** Position `3m + c` of the buffer takes byte `4m + c` of the data. */
  lemma {:induction false} SourceByteOfPixel(data: seq<byte>, m: nat, c: nat)
    requires c < 3
    ensures SourceByte(data, 3 * m + c) == ByteAt(data, 4 * m + c)
  {
    assert (3 * m + c) / 3 == m && (3 * m + c) % 3 == c;
  }

  /** The buffer the loop is meant to leave, described pixel by pixel: each
      pixel the loop reaches has its three colour bytes at `3m`, `3m + 1`
      and `3m + 2` where those fit, and the rest is zero. */
  lemma {:induction false} ExpectedBuffer(data: seq<byte>, size: nat) returns (e: seq<byte>)
    ensures |e| == size
    ensures forall m: nat, c: nat {:trigger RgbAt(e, m, c)} :: c < 3 && 4 * m < |data| && 3 * m + c < size ==> RgbAt(e, m, c) == RgbaAt(data, m, c)
    ensures forall j :: 3 * PixelCount(|data|) <= j < size ==> e[j] == 0
  {
    e := Repacked(data, size);
    forall m: nat, c: nat | c < 3 && 4 * m < |data| && 3 * m + c < size
      ensures RgbAt(e, m, c) == RgbaAt(data, m, c)
    {
      SourceByteOfPixel(data, m, c);
    }
  }

  /** The three positions of pixel `m` in a buffer described as in
      `ExpectedBuffer`. */
  lemma {:induction false} ExpectedPixel(data: seq<byte>, e: seq<byte>, m: nat)
    requires forall m: nat, c: nat {:trigger RgbAt(e, m, c)} :: c < 3 && 4 * m < |data| && 3 * m + c < |e| ==> RgbAt(e, m, c) == RgbaAt(data, m, c)
    requires 4 * m < |data|
    ensures 3 * m < |e| ==> e[3 * m] == ByteAt(data, 4 * m)
    ensures 3 * m + 1 < |e| ==> e[3 * m + 1] == ByteAt(data, 4 * m + 1)
    ensures 3 * m + 2 < |e| ==> e[3 * m + 2] == ByteAt(data, 4 * m + 2)
  {
    assert RgbAt(e, m, 0) == ByteAt(e, 3 * m) && RgbaAt(data, m, 0) == ByteAt(data, 4 * m);
    assert RgbAt(e, m, 1) == ByteAt(e, 3 * m + 1);
    assert RgbAt(e, m, 2) == ByteAt(e, 3 * m + 2);
  }

  /** A buffer described pixel by pixel as in `ExpectedBuffer` is `Repacked`. */
  lemma {:induction false} RepackedUnique(data: seq<byte>, size: nat, e: seq<byte>)
    requires |e| == size
    requires forall m: nat, c: nat {:trigger RgbAt(e, m, c)} :: c < 3 && 4 * m < |data| && 3 * m + c < size ==> RgbAt(e, m, c) == RgbaAt(data, m, c)
    requires forall j :: 3 * PixelCount(|data|) <= j < size ==> e[j] == 0
    ensures e == Repacked(data, size)
  {
    var r := Repacked(data, size);
    forall j | 0 <= j < size
      ensures e[j] == r[j]
    {
      if j < 3 * PixelCount(|data|) {
        var m: nat, c: nat := j / 3, j % 3;
        assert j == 3 * m + c;
        assert RgbAt(e, m, c) == RgbaAt(data, m, c);
      }
    }
  }

  /** When the loop stops, the buffer holds the expected bytes everywhere. */
  lemma {:induction false} LoopExit(data: seq<byte>, size: nat, e: seq<byte>, buffer: seq<byte>, offset: nat)
    requires |e| == size && |buffer| == size
    requires forall m: nat, c: nat {:trigger RgbAt(e, m, c)} :: c < 3 && 4 * m < |data| && 3 * m + c < size ==> RgbAt(e, m, c) == RgbaAt(data, m, c)
    requires forall j :: 3 * PixelCount(|data|) <= j < size ==> e[j] == 0
    requires offset == 3 * PixelCount(|data|)
    requires forall j :: 0 <= j < size ==> buffer[j] == (if j < offset then e[j] else 0)
    ensures buffer == Repacked(data, size)
  {
    RepackedUnique(data, size, e);
    assert forall j :: 0 <= j < size ==> buffer[j] == e[j];
  }

  /** `buffer[index] = value` on a `Uint8Array`: a store past the end is
      dropped. */
  method Store(buffer: array<byte>, index: nat, value: byte)
    modifies buffer
    ensures forall j :: 0 <= j < buffer.Length ==> buffer[j] == (if j == index then value else old(buffer[j]))
  {
    if index < buffer.Length {
      buffer[index] := value;
    }
  }

  /** One iteration of the loop: the three `buffer[offset++] = data[i + c]`
      stores for the colour channels of the pixel at `data[i]`. When those
      are the next three expected bytes, the written prefix grows by three. */
  method CopyPixel(buffer: array<byte>, offset: nat, data: seq<byte>, i: nat, ghost expected: seq<byte>)
    requires |expected| == buffer.Length
    requires offset < |expected| ==> expected[offset] == ByteAt(data, i)
    requires offset + 1 < |expected| ==> expected[offset + 1] == ByteAt(data, i + 1)
    requires offset + 2 < |expected| ==> expected[offset + 2] == ByteAt(data, i + 2)
    requires forall j :: 0 <= j < buffer.Length ==> buffer[j] == (if j < offset then expected[j] else 0)
    modifies buffer
    ensures forall j :: 0 <= j < buffer.Length ==> buffer[j] == (if j < offset + 3 then expected[j] else 0)
  {
    Store(buffer, offset, ByteAt(data, i));
    Store(buffer, offset + 1, ByteAt(data, i + 1));
    Store(buffer, offset + 2, ByteAt(data, i + 2));
  }

  /** The repack loop of `imageToTensor`: a zeroed buffer of
      `width * height * 3` bytes, filled three bytes per group of four,
      skipping the fourth. Also returns how many writes the loop issued
      (the final `offset`). */
  method ImageToRgb(data: seq<byte>, width: nat, height: nat) returns (buffer: array<byte>, written: nat)
    ensures buffer.Length == width * height * 3
    ensures fresh(buffer)
    ensures buffer[..] == Repacked(data, width * height * 3)
    ensures written == 3 * PixelCount(|data|)
  {
    var size := width * height * 3;
    buffer := new byte[size](_ => 0);
    var offset: nat := 0;
    var i: nat := 0;
    ghost var m: nat := 0;
    ghost var expected := ExpectedBuffer(data, size);
    while i < |data|
      invariant i == 4 * m && offset == 3 * m && i < |data| + 4
      invariant buffer.Length == size
      invariant forall j :: 0 <= j < size ==> buffer[j] == (if j < offset then expected[j] else 0)
      decreases |data| - i
    {
      ExpectedPixel(data, expected, m);
      CopyPixel(buffer, offset, data, i, expected);
      offset := offset + 3;
      i := i + 4;
      m := m + 1;
    }
    assert m == PixelCount(|data|);
    LoopExit(data, size, expected, buffer[..], offset);
    written := offset;
  }

  /** For a decoded image of exactly `width * height` RGBA pixels, the loop
      issues exactly as many writes as the buffer holds: none is dropped
      and no position keeps its initial zero. */
  lemma {:induction false} WholeImageFillsBuffer(data: seq<byte>, width: nat, height: nat)
    requires |data| == 4 * (width * height)
    ensures 3 * PixelCount(|data|) == width * height * 3
  {
  }

  /** For a decoded image of exactly `width * height` RGBA pixels, channel
      `c` of pixel `k` of the buffer is channel `c` of pixel `k` of the
      data, for the three colour channels and every pixel. */
  lemma {:induction false} ChannelMap(data: seq<byte>, width: nat, height: nat)
    requires |data| == 4 * (width * height)
    ensures forall k, c :: 0 <= k < width * height && 0 <= c < 3 ==>
      RgbAt(Repacked(data, width * height * 3), k, c) == RgbaAt(data, k, c)
  {
    var buf := Repacked(data, width * height * 3);
    WholeImageFillsBuffer(data, width, height);
    forall k, c | 0 <= k < width * height && 0 <= c < 3
      ensures RgbAt(buf, k, c) == RgbaAt(data, k, c)
    {
      SourceByteOfPixel(data, k, c);
    }
  }

  /** Index `4q + r` with `r < 3` is never an alpha byte. */
  lemma {:induction false} NotAlphaIndex(q: nat, r: nat)
    requires r < 3
    ensures (4 * q + r) % 4 == r
  {
  }

  /** The alpha bytes are never copied: two decodings that differ only in
      their alpha bytes give the same buffer. */
  lemma {:induction false} AlphaIgnored(data: seq<byte>, other: seq<byte>, size: nat)
    requires |data| == |other|
    requires forall i :: 0 <= i < |data| && i % 4 != 3 ==> data[i] == other[i]
    ensures Repacked(data, size) == Repacked(other, size)
  {
    var a, b := Repacked(data, size), Repacked(other, size);
    forall j | 0 <= j < size
      ensures a[j] == b[j]
    {
      if j < 3 * PixelCount(|data|) {
        NotAlphaIndex(j / 3, j % 3);
      }
    }
  }

  /** An optional value; `None` stands for a `null` or `undefined` result. */
  datatype Option<T> = None | Some(value: T)

  /** One detected face: its keypoints, of which 468 and 473 are the pupil
      centres of the face-mesh topology. */
  datatype Face = Face(keypoints: seq<Point>)

  /** What `model.estimateFaces` (or anything before it) gave: a thrown
      error with its message, or a predictions list that may be absent. */
  datatype Detection = Threw(message: string) | Returned(predictions: Option<seq<Face>>)

  /** The record `processImage` resolves to. */
  datatype Response = Failure(error: string) | Success(pupillaryDistance: Num)

  const NoFaceMessage: string := "Nenhum rosto detectado."
  const NoPupilsMessage: string := "Não foi possível encontrar os pontos das pupilas."

  /** Index of the left pupil keypoint. */
  const LeftPupil: nat := 473
  /** Index of the right pupil keypoint. */
  const RightPupil: nat := 468

  /** True when the detection found a face that has both pupil keypoints.
      Testing for keypoint 473 is enough, since 468 comes before it. */
  predicate HasPupils(detection: Detection)
    ensures HasPupils(detection) <==>
      detection.Returned? && detection.predictions.Some? && detection.predictions.value != [] &&
      LeftPupil < |detection.predictions.value[0].keypoints| &&
      RightPupil < |detection.predictions.value[0].keypoints|
  {
    detection.Returned? && detection.predictions.Some? && |detection.predictions.value| > 0 &&
    |detection.predictions.value[0].keypoints| > LeftPupil
  }

  /** `processImage`: every failure, whether thrown by the detector or raised
      by the two checks, becomes a `{ error }` record; otherwise the pupil
      distance in pixels is divided by the factor without any guard on it
      and printed with two decimals. A zero factor gives a non-finite text. */
  function ProcessImage(detection: Detection, pixelsPerMm: real, sqrt: real -> real): (r: Response)
    requires IsSqrt(sqrt)
    ensures r.Success? <==> HasPupils(detection)
    ensures detection.Threw? ==> r == Failure(detection.message)
    ensures detection.Returned? && (detection.predictions.None? || detection.predictions.value == []) ==>
      r == Failure(NoFaceMessage)
    ensures (detection.Returned? && detection.predictions.Some? && detection.predictions.value != [] &&
             !HasPupils(detection)) ==> r == Failure(NoPupilsMessage)
    ensures HasPupils(detection) && pixelsPerMm == 0.0 ==> r.pupillaryDistance == NonFinite
    ensures HasPupils(detection) && pixelsPerMm != 0.0 ==>
      var kp := detection.predictions.value[0].keypoints;
      var d := Distance(kp[LeftPupil], kp[RightPupil], sqrt) / pixelsPerMm;
      r.pupillaryDistance.Finite? && -0.005 <= r.pupillaryDistance.value - d <= 0.005
  {
    match detection
    case Threw(message) => Failure(message)
    case Returned(predictions) =>
      if predictions.None? || |predictions.value| == 0 then Failure(NoFaceMessage)
      else
        var keypoints := predictions.value[0].keypoints;
        if |keypoints| <= LeftPupil then Failure(NoPupilsMessage)
        else
          var pdInPixels := Distance(keypoints[LeftPupil], keypoints[RightPupil], sqrt);
          if pixelsPerMm == 0.0 then Success(NonFinite)
          else Success(Finite(Round2(pdInPixels / pixelsPerMm)))
  }

  /** With a positive factor, the automatic result equals the manual readout
      the measurement screen would show for handles on the two pupils. */
  lemma AgreesWithManualReadout(detection: Detection, pixelsPerMm: real, sqrt: real -> real)
    requires IsSqrt(sqrt)
    requires HasPupils(detection) && pixelsPerMm > 0.0
    ensures var kp := detection.predictions.value[0].keypoints;
      ProcessImage(detection, pixelsPerMm, sqrt)
        == Success(Finite(MeasurementScreen.CalculateDistanceMm(kp[LeftPupil], kp[RightPupil], Finite(pixelsPerMm), sqrt)))
  {
  }

  /** Unlike the manual readout, the service does not guard its divisor: a
      negative factor turns pupils 100 px apart into -100.00 mm, where
      `calculateDistanceMm` shows the sentinel 0.00. */
  lemma {:induction false} NegativeFactorGivesNegativeDistance(keypoints: seq<Point>, sqrt: real -> real)
    requires IsSqrt(sqrt)
    requires |keypoints| > LeftPupil
    requires keypoints[LeftPupil] == Point(0.0, 0.0) && keypoints[RightPupil] == Point(100.0, 0.0)
    ensures ProcessImage(Returned(Some([Face(keypoints)])), -1.0, sqrt) == Success(Finite(-100.0))
    ensures MeasurementScreen.CalculateDistanceMm(keypoints[LeftPupil], keypoints[RightPupil], Finite(-1.0), sqrt) == 0.0
  {
    var left, right := keypoints[LeftPupil], keypoints[RightPupil];
    DistanceAlongAxis(left, right, sqrt);
    assert Distance(left, right, sqrt) / -1.0 == -10000 as real / 100.0;
    Round2Exact(-10000);
  }
}
