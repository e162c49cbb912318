/** The calibration manager of hand_estimation.py: `calibrate` (read the hand width, then wait for a
    capture at the reference distance and save the focal length) and `get_calibration_data` (reuse
    the saved calibration or recalibrate). The console and the camera are finite sequences of
    inputs; a loop that runs out of inputs yields `None`, standing for "still waiting". */
module Calibration {
  import opened Wrappers
  import opened HandGeometry
  import opened DistanceModel
  import opened Camera

  /** The pair the calibration file holds: line 1 the focal length, line 2 the hand width. */
  datatype CalibrationRecord = CalibrationRecord(focalLength: real, knownHandWidthCm: real)

  /** The calibration file as `get_calibration_data` finds it: missing, present but not parsable
      as two floats, or holding a record. */
  datatype StoredFile = NoFile | Corrupt | Stored(record: CalibrationRecord)

  /** One line typed at the console: its text and what `float()` makes of it (`None` for the
      `ValueError` case). */
  datatype ConsoleLine = ConsoleLine(text: string, number: Option<real>)

  /** The answer to the reuse-or-recalibrate prompt. */
  datatype Answer = UseStored | Recalibrate | Unrecognised

  /** The index of the first element satisfying `p`, or `|s|` when there is none. */
  function FirstIndex<T>(s: seq<T>, p: T -> bool): (r: nat)
    ensures r <= |s|
    ensures forall i :: 0 <= i < r ==> !p(s[i])
    ensures r < |s| ==> p(s[r])
  {
    if s == [] then 0 else if p(s[0]) then 0 else 1 + FirstIndex(s[1..], p)
  }

  // ---- the hand-width prompt (the first loop of `calibrate`) ----

  /** The prompt accepts a line that parses as a number greater than 0. */
  predicate AcceptsWidth(line: ConsoleLine)
  {
    line.number.Some? && line.number.value > 0.0
  }

  /** The hand width the prompt settles on, if the console ever supplies an acceptable line. */
  function HandWidthOutcome(lines: seq<ConsoleLine>): (w: Option<real>)
    ensures w.Some? ==> w.value > 0.0
  {
    var i := FirstIndex(lines, AcceptsWidth);
    if i < |lines| then lines[i].number else None
  }

  /** A non-numeric or non-positive line is rejected and the user is asked again. */
  lemma RejectedWidthReprompts(line: ConsoleLine, lines: seq<ConsoleLine>)
    requires !AcceptsWidth(line)
    ensures HandWidthOutcome([line] + lines) == HandWidthOutcome(lines)
  {
  }

  method PromptHandWidth(lines: seq<ConsoleLine>) returns (width: Option<real>)
    ensures width == HandWidthOutcome(lines)
    ensures width.Some? ==> width.value > 0.0
  {
    var i := 0;
    while i < |lines|
      invariant 0 <= i <= |lines|
      invariant forall j :: 0 <= j < i ==> !AcceptsWidth(lines[j])
    {
      var n := lines[i].number;
      if n.Some? && n.value > 0.0 {
        return n;
      }
      i := i + 1;
    }
    return None;
  }

  // ---- the capture loop (the second loop of `calibrate`) ----

  /** A frame ends the capture loop when it was read, the key was 'c', a hand was detected and its
      pixel width is positive. */
  predicate Captures(f: Frame)
  {
    f.read && KeyIs(f.key, 'c') && f.hand.Some? && PixelWidthOf(f) > 0
  }

  /** The focal length the capture loop computes, if some frame is captured. */
  function CaptureOutcome(frames: seq<Frame>, knownHandWidthCm: real): (f: Option<real>)
    requires knownHandWidthCm > 0.0
    ensures f.Some? ==> f.value > 0.0
  {
    var i := FirstIndex(frames, Captures);
    if i < |frames| then Some(FocalLength(PixelWidthOf(frames[i]), knownHandWidthCm)) else None
  }

  /** A frame that is not read, has no 'c', no hand, or a hand of pixel width 0 saves nothing and the
      loop waits for the next one. */
  lemma FailedCaptureKeepsWaiting(f: Frame, frames: seq<Frame>, knownHandWidthCm: real)
    requires knownHandWidthCm > 0.0 && !Captures(f)
    ensures CaptureOutcome([f] + frames, knownHandWidthCm) == CaptureOutcome(frames, knownHandWidthCm)
  {
  }

  /** A capturing frame ends the wait: the loop yields the focal length of that frame's hand. */
  lemma CaptureEndsWaiting(f: Frame, frames: seq<Frame>, knownHandWidthCm: real)
    requires knownHandWidthCm > 0.0 && Captures(f)
    ensures CaptureOutcome([f] + frames, knownHandWidthCm) == Some(FocalLength(PixelWidthOf(f), knownHandWidthCm))
  {
  }

  method CaptureFocalLength(frames: seq<Frame>, knownHandWidthCm: real) returns (focalLength: Option<real>)
    requires knownHandWidthCm > 0.0
    ensures focalLength == CaptureOutcome(frames, knownHandWidthCm)
  {
    var i := 0;
    while i < |frames|
      invariant 0 <= i <= |frames|
      invariant forall j :: 0 <= j < i ==> !Captures(frames[j])
    {
      var f := frames[i];
      i := i + 1;
      if !f.read {
        continue;
      }
      var pressed := KeyIs(f.key, 'c');
      if pressed && f.hand.Some? {
        var pixelWidth := GetHandDetails(f.hand.value, f.width, f.height).pixelWidth;
        if pixelWidth > 0 {
          return Some(FocalLength(pixelWidth, knownHandWidthCm));
        }
      }
    }
    return None;
  }

  // ---- `calibrate` as a whole ----

  /** The record `calibrate` returns (and writes), if both of its loops finish. */
  function CalibrateOutcome(lines: seq<ConsoleLine>, frames: seq<Frame>): (r: Option<CalibrationRecord>)
    ensures r.Some? <==> HandWidthOutcome(lines).Some? && CaptureOutcome(frames, HandWidthOutcome(lines).value).Some?
    ensures r.Some? ==> r.value.knownHandWidthCm == HandWidthOutcome(lines).value > 0.0 && r.value.focalLength > 0.0
    ensures r.Some? ==> r.value.focalLength == CaptureOutcome(frames, r.value.knownHandWidthCm).value
  {
    match HandWidthOutcome(lines)
    case None => None
    case Some(w) =>
      match CaptureOutcome(frames, w)
      case None => None
      case Some(f) => Some(CalibrationRecord(f, w))
  }

  /** Whatever `calibrate` returns is positive and places the hand of the captured frame (the first
      capturing one) exactly at the reference distance. */
  lemma CalibrateOutcomeSound(lines: seq<ConsoleLine>, frames: seq<Frame>)
    requires CalibrateOutcome(lines, frames).Some?
    ensures var r := CalibrateOutcome(lines, frames).value;
      && r.knownHandWidthCm > 0.0 && r.focalLength > 0.0
      && var k := FirstIndex(frames, Captures);
         k < |frames| && Captures(frames[k])
         && EstimateDistance(r.knownHandWidthCm, r.focalLength, PixelWidthOf(frames[k]))
            == KNOWN_DISTANCE_FOR_CALIBRATION_CM
  {
    var r := CalibrateOutcome(lines, frames).value;
    var k := FirstIndex(frames, Captures);
    CalibrationIdentity(PixelWidthOf(frames[k]), r.knownHandWidthCm, r.focalLength);
  }

  /** `calibrate`: the record it returns, and the file it leaves (overwritten exactly when a
      record is returned). */
  method Calibrate(file: StoredFile, lines: seq<ConsoleLine>, frames: seq<Frame>)
    returns (result: Option<CalibrationRecord>, fileAfter: StoredFile)
    ensures result == CalibrateOutcome(lines, frames)
    ensures fileAfter == if result.Some? then Stored(result.value) else file
  {
    var width := PromptHandWidth(lines);
    if width.None? {
      return None, file;
    }
    var focalLength := CaptureFocalLength(frames, width.value);
    if focalLength.None? {
      return None, file;
    }
    var record := CalibrationRecord(focalLength.value, width.value);
    return Some(record), Stored(record);
  }

  // ---- `get_calibration_data` ----

  /** `str.lower()` on the characters that matter here. */
  function LowerChar(c: char): char
  {
    if 'A' <= c <= 'Z' then (c as int + 32) as char else c
  }

  function Lower(s: string): (r: string)
    ensures |r| == |s|
    ensures forall i :: 0 <= i < |s| ==> r[i] == LowerChar(s[i])
  {
    if s == [] then [] else [LowerChar(s[0])] + Lower(s[1..])
  }

  function ParseAnswer(text: string): (a: Answer)
    ensures a != Unrecognised ==> |text| == 1
  {
    var t := Lower(text);
    if t == "y" then UseStored else if t == "n" then Recalibrate else Unrecognised
  }

  /** Exactly "y" and "Y" reuse the file, exactly "n" and "N" recalibrate; anything else is
      unrecognised. */
  lemma AnswerCases(text: string)
    ensures ParseAnswer(text) == UseStored <==> text == "y" || text == "Y"
    ensures ParseAnswer(text) == Recalibrate <==> text == "n" || text == "N"
  {
  }

  predicate IsAnswer(line: ConsoleLine)
  {
    ParseAnswer(line.text) != Unrecognised
  }

  /** The first recognised answer, with the number of console lines it took. */
  method PromptAnswer(lines: seq<ConsoleLine>) returns (answer: Answer, used: nat)
    ensures var i := FirstIndex(lines, IsAnswer);
      if i < |lines| then answer == ParseAnswer(lines[i].text) != Unrecognised && used == i + 1
      else answer == Unrecognised && used == |lines|
  {
    var i := 0;
    while i < |lines|
      invariant 0 <= i <= |lines|
      invariant forall j :: 0 <= j < i ==> !IsAnswer(lines[j])
    {
      var a := ParseAnswer(lines[i].text);
      if a != Unrecognised {
        return a, i + 1;
      }
      i := i + 1;
    }
    return Unrecognised, |lines|;
  }

  /** What `get_calibration_data` returns: with no file it calibrates; otherwise it asks until it
      gets "y" or "n", loads the file on "y" (recalibrating if the file does not parse) and
      recalibrates on "n". */
  function CalibrationDataOutcome(file: StoredFile, lines: seq<ConsoleLine>, frames: seq<Frame>): (r: Option<CalibrationRecord>)
    ensures r.Some? ==> (file.Stored? && r.value == file.record)
                        || (r.value.knownHandWidthCm > 0.0 && r.value.focalLength > 0.0)
  {
    if file.NoFile? then CalibrateOutcome(lines, frames)
    else
      var i := FirstIndex(lines, IsAnswer);
      if i == |lines| then None
      else if ParseAnswer(lines[i].text) == UseStored && file.Stored? then Some(file.record)
      else CalibrateOutcome(lines[i + 1..], frames)
  }

  /** "y" reuses a parsable file as it is, without any check on its values. */
  lemma ReuseLoadsStored(record: CalibrationRecord, line: ConsoleLine, lines: seq<ConsoleLine>, frames: seq<Frame>)
    requires line.text == "y" || line.text == "Y"
    ensures CalibrationDataOutcome(Stored(record), [line] + lines, frames) == Some(record)
  {
  }

  /** "y" on a file that does not parse falls back to calibrating with the rest of the console. */
  lemma CorruptFileRecalibrates(line: ConsoleLine, lines: seq<ConsoleLine>, frames: seq<Frame>)
    requires line.text == "y" || line.text == "Y"
    ensures CalibrationDataOutcome(Corrupt, [line] + lines, frames) == CalibrateOutcome(lines, frames)
  {
  }

  /** "n" recalibrates whatever the file holds. */
  lemma DeclineRecalibrates(file: StoredFile, line: ConsoleLine, lines: seq<ConsoleLine>, frames: seq<Frame>)
    requires file != NoFile && (line.text == "n" || line.text == "N")
    ensures CalibrationDataOutcome(file, [line] + lines, frames) == CalibrateOutcome(lines, frames)
  {
  }

  /** Any other answer is rejected and the question asked again. */
  lemma UnrecognisedAnswerReprompts(file: StoredFile, line: ConsoleLine, lines: seq<ConsoleLine>, frames: seq<Frame>)
    requires file != NoFile && ParseAnswer(line.text) == Unrecognised
    ensures CalibrationDataOutcome(file, [line] + lines, frames) == CalibrationDataOutcome(file, lines, frames)
  {
    var s := [line] + lines;
    assert s[1..] == lines;
    var i := FirstIndex(lines, IsAnswer);
    if i < |lines| {
      assert s[i + 1 + 1..] == lines[i + 1..];
    }
  }

  /** Calibrating and then choosing to reuse gives back exactly the calibrated pair. */
  lemma SavedCalibrationReloads(lines: seq<ConsoleLine>, frames: seq<Frame>,
                                                   line: ConsoleLine, later: seq<ConsoleLine>, laterFrames: seq<Frame>)
    requires CalibrateOutcome(lines, frames).Some?
    requires line.text == "y" || line.text == "Y"
    ensures CalibrationDataOutcome(Stored(CalibrateOutcome(lines, frames).value), [line] + later, laterFrames)
            == CalibrateOutcome(lines, frames)
  {
  }

  /** `get_calibration_data`, returning the record and the file as it leaves it. */
  method GetCalibrationData(file: StoredFile, lines: seq<ConsoleLine>, frames: seq<Frame>)
    returns (result: Option<CalibrationRecord>, fileAfter: StoredFile)
    ensures result == CalibrationDataOutcome(file, lines, frames)
    ensures fileAfter == if result.Some? then Stored(result.value) else file
  {
    if file.NoFile? {
      result, fileAfter := Calibrate(file, lines, frames);
      return;
    }
    var answer, used := PromptAnswer(lines);
    if answer == Unrecognised {
      return None, file;
    }
    if answer == UseStored && file.Stored? {
      return Some(file.record), file;
    }
    result, fileAfter := Calibrate(file, lines[used..], frames);
  }
}
