/** The runtime loop of hand_estimation.py (`main`): per frame, the bounding box, the distance text
    and the proximity warning it draws, and when the loop stops. Drawing itself is not modelled; an
    `Overlay` records what would be drawn. */
module Runtime {
  import opened Wrappers
  import opened HandGeometry
  import opened DistanceModel
  import opened Camera
  import opened Calibration

  /** Distances (cm) strictly below this draw the "Too Close!! Move Back" warning. */
  const PROXIMITY_WARNING_CM: real := 60.0

  /** What one frame shows: the palm box, the distance text and the warning, each when drawn. */
  datatype Overlay = Overlay(box: Option<BoundingBox>, distance: Option<real>, tooClose: bool)

  /** The annotations `main` draws for one successfully read frame. The box is drawn for every
      detected hand; the distance only for a positive pixel width; the warning only when that
      distance is strictly below the threshold. */
  function Annotate(hand: Option<Palm>, imageWidth: int, imageHeight: int, record: CalibrationRecord): (o: Overlay)
    ensures o.box.Some? <==> hand.Some?
    ensures hand.Some? ==> o.box == Some(GetHandDetails(hand.value, imageWidth, imageHeight).box)
    ensures o.distance.Some? <==> hand.Some? && GetHandDetails(hand.value, imageWidth, imageHeight).pixelWidth > 0
    ensures o.tooClose <==> o.distance.Some? && o.distance.value < PROXIMITY_WARNING_CM
    ensures o.distance.Some? ==> o.distance.value * GetHandDetails(hand.value, imageWidth, imageHeight).pixelWidth as real
                                 == record.knownHandWidthCm * record.focalLength
  {
    if hand.None? then Overlay(None, None, false)
    else
      var details := GetHandDetails(hand.value, imageWidth, imageHeight);
      if details.pixelWidth > 0 then
        var distance := EstimateDistance(record.knownHandWidthCm, record.focalLength, details.pixelWidth);
        Overlay(Some(details.box), Some(distance), distance < PROXIMITY_WARNING_CM)
      else
        Overlay(Some(details.box), None, false)
  }

  /** With a calibration made this session from a capture of `calibrationPixels` pixels, a hand
      `pixelWidth` pixels wide is estimated too close exactly when it looks more than half as wide as
      it did at 30 cm. */
  lemma TooCloseAfterCalibration(calibrationPixels: int, pixelWidth: int, knownHandWidthCm: real)
    requires calibrationPixels > 0 && pixelWidth > 0 && knownHandWidthCm > 0.0
    ensures (EstimateDistance(knownHandWidthCm, FocalLength(calibrationPixels, knownHandWidthCm), pixelWidth)
             < PROXIMITY_WARNING_CM) <==> 2 * pixelWidth > calibrationPixels
  {
    KnownWidthCancels(calibrationPixels, pixelWidth, knownHandWidthCm);
    var p, c := pixelWidth as real, calibrationPixels as real;
    HalfWidthRule(KNOWN_DISTANCE_FOR_CALIBRATION_CM * c / p, p, c);
    assert (2 * pixelWidth) as real == 2.0 * p;
  }

  /** The arithmetic behind the rule: d = 30c/p lies below 60 exactly when c < 2p. */
  lemma HalfWidthRule(d: real, p: real, c: real)
    requires p > 0.0 && d == KNOWN_DISTANCE_FOR_CALIBRATION_CM * c / p
    ensures d < PROXIMITY_WARNING_CM <==> c < 2.0 * p
  {
  }

  /** The same rule as seen on screen: the warning is drawn for a detected hand exactly when its
      pixel width exceeds half the calibration pixel width. */
  lemma WarningAfterCalibration(palm: Palm, imageWidth: int, imageHeight: int, calibrationPixels: int, knownHandWidthCm: real)
    requires calibrationPixels > 0 && knownHandWidthCm > 0.0
    ensures var record := CalibrationRecord(FocalLength(calibrationPixels, knownHandWidthCm), knownHandWidthCm);
            var p := GetHandDetails(palm, imageWidth, imageHeight).pixelWidth;
            Annotate(Some(palm), imageWidth, imageHeight, record).tooClose <==> 2 * p > calibrationPixels
  {
    var p := GetHandDetails(palm, imageWidth, imageHeight).pixelWidth;
    if p > 0 {
      TooCloseAfterCalibration(calibrationPixels, p, knownHandWidthCm);
    }
  }

  /** The worked numbers: a hand 8 cm wide seen 120 pixels wide at 30 cm gives focal length 450;
      100 pixels then reads 36 cm (warned), 60 pixels reads 60 cm (not warned: the test is strict). */
  lemma WorkedExample()
    ensures FocalLength(120, 8.0) == 450.0
    ensures EstimateDistance(8.0, 450.0, 100) == 36.0 && 36.0 < PROXIMITY_WARNING_CM
    ensures EstimateDistance(8.0, 450.0, 60) == 60.0 && !(60.0 < PROXIMITY_WARNING_CM)
  {
  }

  /** The overlays shown, in order, for a run over `frames`: a frame that fails to read is skipped
      without showing anything or reading a key; a read frame is shown, and 'q' then ends the loop.
      Running out of frames stands for the camera closing. */
  function Displayed(frames: seq<Frame>, record: CalibrationRecord): (shown: seq<Overlay>)
    ensures |shown| <= |frames|
  {
    if frames == [] then []
    else if !frames[0].read then Displayed(frames[1..], record)
    else
      var o := Annotate(frames[0].hand, frames[0].width, frames[0].height, record);
      [o] + (if KeyIs(frames[0].key, 'q') then [] else Displayed(frames[1..], record))
  }

  /** Every overlay shown is the annotation of some frame that was read. */
  lemma {:induction false} DisplayedFromReadFrames(frames: seq<Frame>, record: CalibrationRecord)
    ensures var shown := Displayed(frames, record);
      forall j :: 0 <= j < |shown| ==>
        exists k :: (0 <= k < |frames| && frames[k].read
                     && shown[j] == Annotate(frames[k].hand, frames[k].width, frames[k].height, record))
  {
    if frames != [] {
      var rest := frames[1..];
      DisplayedFromReadFrames(rest, record);
      var shown := Displayed(frames, record);
      forall j | 0 <= j < |shown|
        ensures exists k :: (0 <= k < |frames| && frames[k].read
                             && shown[j] == Annotate(frames[k].hand, frames[k].width, frames[k].height, record))
      {
        if !(frames[0].read && j == 0) {
          var j' := if frames[0].read then j - 1 else j;
          assert shown[j] == Displayed(rest, record)[j'];
          var k :| 0 <= k < |rest| && rest[k].read
            && Displayed(rest, record)[j'] == Annotate(rest[k].hand, rest[k].width, rest[k].height, record);
          assert frames[k + 1] == rest[k];
        }
      }
    }
  }

  /** The number of frames that were read successfully. */
  function ReadCount(frames: seq<Frame>): (n: nat)
    ensures n <= |frames|
  {
    if frames == [] then 0 else (if frames[0].read then 1 else 0) + ReadCount(frames[1..])
  }

  /** Every read frame up to the first read frame with key 'q' is shown, in order: the annotation of
      read frame `k` is the overlay at the position counting the read frames before it. */
  lemma {:induction false} ReadFrameShown(frames: seq<Frame>, record: CalibrationRecord, k: nat)
    requires k < |frames| && frames[k].read
    requires forall j :: 0 <= j < k && frames[j].read ==> !KeyIs(frames[j].key, 'q')
    ensures ReadCount(frames[..k]) < |Displayed(frames, record)|
    ensures Displayed(frames, record)[ReadCount(frames[..k])]
            == Annotate(frames[k].hand, frames[k].width, frames[k].height, record)
  {
    if k > 0 {
      var rest := frames[1..];
      ReadFrameShown(rest, record, k - 1);
      assert frames[..k][1..] == rest[..k - 1];
    }
  }

  /** When no read frame but possibly the last one has key 'q', every read frame is shown exactly
      once: the number of overlays is the number of frames read. */
  lemma {:induction false} DisplayedLength(frames: seq<Frame>, record: CalibrationRecord)
    requires forall j :: 0 <= j < |frames| - 1 && frames[j].read ==> !KeyIs(frames[j].key, 'q')
    ensures |Displayed(frames, record)| == ReadCount(frames)
  {
    if frames != [] {
      DisplayedLength(frames[1..], record);
    }
  }

  /** A read frame with key 'q' ends the loop: nothing after it is shown. */
  lemma {:induction false} QuitStopsDisplay(frames: seq<Frame>, record: CalibrationRecord, k: nat)
    requires k < |frames| && frames[k].read && KeyIs(frames[k].key, 'q')
    ensures Displayed(frames, record) == Displayed(frames[..k + 1], record)
  {
    if k > 0 {
      QuitStopsDisplay(frames[1..], record, k - 1);
      assert frames[1..][..k] == frames[..k + 1][1..];
    } else {
      assert frames[..1][1..] == [];
    }
  }

  /** The loop of `main` once calibration data is available. */
  method RunEstimation(frames: seq<Frame>, record: CalibrationRecord) returns (shown: seq<Overlay>)
    ensures shown == Displayed(frames, record)
  {
    shown := [];
    var i := 0;
    while i < |frames|
      invariant 0 <= i <= |frames|
      invariant shown + Displayed(frames[i..], record) == Displayed(frames, record)
    {
      var f := frames[i];
      assert frames[i..][1..] == frames[i + 1..];
      i := i + 1;
      if !f.read {
        continue;
      }
      var o := Annotate(f.hand, f.width, f.height, record);
      shown := shown + [o];
      if KeyIs(f.key, 'q') {
        break;
      }
    }
  }

  /** `main`: obtain calibration data, then run the estimation loop on the second camera session.
      `None` means calibration never finished within the given inputs. */
  method RunEstimator(file: StoredFile, lines: seq<ConsoleLine>, calibrationFrames: seq<Frame>, frames: seq<Frame>)
    returns (shown: Option<seq<Overlay>>, fileAfter: StoredFile)
    ensures var data := CalibrationDataOutcome(file, lines, calibrationFrames);
      && shown == (if data.Some? then Some(Displayed(frames, data.value)) else None)
      && fileAfter == (if data.Some? then Stored(data.value) else file)
  {
    var data;
    data, fileAfter := GetCalibrationData(file, lines, calibrationFrames);
    if data.None? {
      return None, fileAfter;
    }
    var overlays := RunEstimation(frames, data.value);
    shown := Some(overlays);
  }
}
