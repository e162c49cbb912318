/** The pinhole-camera arithmetic of hand_estimation.py: `estimate_distance` and the focal-length
    formula of `calibrate`. Over `real`, so every equality below holds for exact arithmetic; the
    source computes in IEEE-754 doubles, where they hold only up to rounding. */
module DistanceModel {

  /** The reference distance (cm) at which the user holds the hand during calibration. */
  const KNOWN_DISTANCE_FOR_CALIBRATION_CM: real := 30.0

  /** `estimate_distance`: 0 is the "no estimate" sentinel for a zero pixel width, and the division
      is never reached then; otherwise the distance times the pixel width is the known width times the
      focal length. */
  function EstimateDistance(knownWidthCm: real, focalLength: real, pixelWidth: int): (d: real)
    ensures pixelWidth == 0 ==> d == 0.0
    ensures pixelWidth != 0 ==> d * pixelWidth as real == knownWidthCm * focalLength
    ensures knownWidthCm > 0.0 && focalLength > 0.0 && pixelWidth > 0 ==> d > 0.0
  {
    if pixelWidth == 0 then 0.0 else (knownWidthCm * focalLength) / pixelWidth as real
  }

  /** The focal length `calibrate` derives from a capture at the reference distance. */
  function FocalLength(pixelWidth: int, knownHandWidthCm: real): (f: real)
    requires knownHandWidthCm != 0.0
    ensures f * knownHandWidthCm == pixelWidth as real * KNOWN_DISTANCE_FOR_CALIBRATION_CM
    ensures pixelWidth > 0 && knownHandWidthCm > 0.0 ==> f > 0.0
  {
    (pixelWidth as real * KNOWN_DISTANCE_FOR_CALIBRATION_CM) / knownHandWidthCm
  }

  /** The two formulas are inverse: a hand measured with the pixel width seen at calibration is
      placed exactly at the reference distance, and the calibrated focal length is the only one that
      does so. */
  lemma CalibrationIdentity(pixelWidth: int, knownHandWidthCm: real, focalLength: real)
    requires pixelWidth != 0 && knownHandWidthCm != 0.0
    ensures EstimateDistance(knownHandWidthCm, focalLength, pixelWidth) == KNOWN_DISTANCE_FOR_CALIBRATION_CM
            <==> focalLength == FocalLength(pixelWidth, knownHandWidthCm)
  {
    var p := pixelWidth as real;
    var d := EstimateDistance(knownHandWidthCm, focalLength, pixelWidth);
    var f0 := FocalLength(pixelWidth, knownHandWidthCm);
    assert d * p == knownHandWidthCm * focalLength;
    assert f0 * knownHandWidthCm == p * KNOWN_DISTANCE_FOR_CALIBRATION_CM;
    if focalLength == f0 {
      assert d * p == KNOWN_DISTANCE_FOR_CALIBRATION_CM * p;
    }
    if d == KNOWN_DISTANCE_FOR_CALIBRATION_CM {
      assert focalLength * knownHandWidthCm == f0 * knownHandWidthCm;
    }
  }

  /** After calibrating with pixel width `calibrationPixels`, the entered hand width cancels out: the
      estimate depends only on the ratio of the two pixel widths. */
  lemma KnownWidthCancels(calibrationPixels: int, pixelWidth: int, knownHandWidthCm: real)
    requires pixelWidth != 0 && knownHandWidthCm != 0.0
    ensures EstimateDistance(knownHandWidthCm, FocalLength(calibrationPixels, knownHandWidthCm), pixelWidth)
            == KNOWN_DISTANCE_FOR_CALIBRATION_CM * calibrationPixels as real / pixelWidth as real
  {
    var p := pixelWidth as real;
    var f := FocalLength(calibrationPixels, knownHandWidthCm);
    var d := EstimateDistance(knownHandWidthCm, f, pixelWidth);
    assert d * p == knownHandWidthCm * f;
    assert knownHandWidthCm * f == calibrationPixels as real * KNOWN_DISTANCE_FOR_CALIBRATION_CM;
  }

  /** With positive calibration data, a wider hand in pixels is estimated strictly closer. */
  lemma WiderIsCloser(knownWidthCm: real, focalLength: real, narrow: int, wide: int)
    requires knownWidthCm > 0.0 && focalLength > 0.0 && 0 < narrow < wide
    ensures EstimateDistance(knownWidthCm, focalLength, wide) < EstimateDistance(knownWidthCm, focalLength, narrow)
  {
    var dn := EstimateDistance(knownWidthCm, focalLength, narrow);
    var dw := EstimateDistance(knownWidthCm, focalLength, wide);
    assert dn * narrow as real == dw * wide as real;
    assert dw * narrow as real < dw * wide as real;
  }
}
