# Hand distance estimator: a Dafny model of its arithmetic and decision rules

The program (`hand_estimation.py`) estimates how far a hand is from a camera with the pinhole-camera
relation *distance = known width × focal length / pixel width*. It first calibrates. The user types
their hand width and holds the hand at 30 cm. A capture then fixes the focal length, and the
program saves it to a two-line file. After that it measures every frame and warns when the hand is
closer than 60 cm.

This project models the parts of that program that are logic rather than camera, detector or
window plumbing:

- `hand_geometry.dfy` (module `HandGeometry`): `get_hand_details`. It takes the wrist, index-knuckle
  and pinky-knuckle landmarks and scales them to pixels. Python's `int()` then truncates them toward
  zero (`Trunc`, which is not the floor). The result is an ordered bounding box plus a pixel width.
- `distance_model.dfy` (module `DistanceModel`): `estimate_distance` with its zero guard. Also the
  focal-length formula of `calibrate` and the 30 cm reference constant. It proves the calibration
  identity in both directions. It also proves that after a calibration the entered hand width
  cancels out, so the estimate is 30 × (calibration pixels) / (pixels).
- `camera.dfy` (module `Camera`): what one pass of a capture loop observes. That is whether the
  read succeeded, the detected palm (if any), the frame size and the `waitKey` code, masked with
  `& 0xFF`.
- `calibration.dfy` (module `Calibration`): the hand-width prompt loop, the capture loop and
  `calibrate` as a whole. Also the reuse-or-recalibrate dispatch of `get_calibration_data`. The
  calibration file is a value: `NoFile`, `Corrupt` (does not parse) or `Stored(record)`.
- `runtime.dfy` (module `Runtime`): the loop of `main`. It covers what each frame shows (box,
  distance, "too close" warning) and when the loop stops.
- `wrappers.dfy`: the `Option` type.

Each loop of the source is a `method` with a `while` loop over a finite sequence of inputs. The
console lines are parsed by `float()` beforehand. Frames are already run through the detector. Each
method is proved against a specification:

- `PromptHandWidth` is proved equal to `HandWidthOutcome`.
- `CaptureFocalLength` is proved equal to `CaptureOutcome`.
- `Calibrate` is proved equal to `CalibrateOutcome`.
- `PromptAnswer` is proved to return the first recognised answer, located with `FirstIndex`.
- `GetCalibrationData` is proved equal to `CalibrationDataOutcome`.
- `RunEstimation` is proved equal to `Displayed`.

The lemmas state the source's rules about those functions. When the inputs run out before the
source's `while True` would exit, the result is `None`, meaning "still waiting".

All arithmetic is over `real`. Equalities such as "the calibrated hand reads exactly 30 cm" hold
for exact arithmetic only. The source computes in IEEE-754 doubles, so there they hold up to
rounding.

The code differs from its own comment at line 33, and its distance is not always non-negative:

- The pixel width is the truncated horizontal span of all three landmarks, wrist included
  (`hand_estimation.py:26-34`). It is not the index-to-pinky distance that the comment at line 33
  describes. `WristWidensPixelWidth` gives an input where the two differ (50 pixels against 10).
- A distance estimate is not always non-negative. The loaded calibration file is not checked
  (`hand_estimation.py:124-128`), so a file holding a negative or zero value gives a negative or
  zero distance, and that also draws the warning. `ReuseLoadsStored` states that the file's pair is
  returned as it is.

## Model

| member | source | states |
|---|---|---|
| HandGeometry.Trunc | hand_estimation.py:30-31 | `int()` truncates toward zero: for r ≥ 0 the result is in (r−1, r]; for r < 0 it is in [r, r+1) |
| HandGeometry.TruncMonotone | hand_estimation.py:30-31 | truncation is monotone, which is why the truncated minimum never exceeds the truncated maximum |
| HandGeometry.GetHandDetails | hand_estimation.py:13-36 | the box is ordered (x_min ≤ x_max, y_min ≤ y_max); the pixel width is non-negative and equals x_max − x_min |
| HandGeometry.BoxIsTruncatedHull | hand_estimation.py:26-31 | each box side bounds the truncated pixel coordinate of every one of the three landmarks and equals that of one of them |
| HandGeometry.PixelWidthCoversKnuckles | hand_estimation.py:21-34 | the pixel width is at least the truncated index-to-pinky distance, because the span includes all three points |
| HandGeometry.WristWidensPixelWidth | hand_estimation.py:33-34 | a concrete palm whose knuckles are 10 pixels apart but whose pixel width is 50, the span set by the wrist |
| HandGeometry.PixelWidthNearSpan | hand_estimation.py:26-34 | for landmarks inside the frame, the pixel width is within one pixel of the real horizontal span |
| DistanceModel.EstimateDistance | hand_estimation.py:38-45 | pixel width 0 returns 0 without dividing; otherwise distance × pixel width = known width × focal length; positive inputs give a positive distance |
| DistanceModel.FocalLength | hand_estimation.py:95 | focal length × hand width = pixel width × 30 cm; positive for a positive capture and hand width |
| DistanceModel.CalibrationIdentity | hand_estimation.py:95 | the estimate is exactly the 30 cm reference distance if and only if the focal length is the calibrated one |
| DistanceModel.KnownWidthCancels | hand_estimation.py:45 | after a calibration at p0 pixels, a hand of p pixels is estimated at 30·p0/p whatever hand width was typed |
| DistanceModel.WiderIsCloser | hand_estimation.py:45 | with positive calibration data, a strictly wider pixel width gives a strictly smaller distance |
| Camera.KeyIs | hand_estimation.py:92 | for a code in 0..255 the key matches `c` if and only if the code is `ord(c)`; a match needs `c` below 256; "no key" (−1) matches only code 255 |
| Camera.PixelWidthOf | hand_estimation.py:93 | the pixel width measured on a frame's hand is non-negative |
| Calibration.HandWidthOutcome | hand_estimation.py:55-62 | the hand-width prompt only ever settles on a value greater than 0 |
| Calibration.RejectedWidthReprompts | hand_estimation.py:56-62 | a non-numeric or non-positive line is discarded and the prompt's outcome is that of the following lines |
| Calibration.PromptHandWidth | hand_estimation.py:55-62 | the prompt loop returns the first line parsing to a positive number, as `HandWidthOutcome` |
| Calibration.CaptureOutcome | hand_estimation.py:73-106 | a capture yields a focal length, always positive, only from a read frame with key 'c', a hand and a positive pixel width |
| Calibration.FailedCaptureKeepsWaiting | hand_estimation.py:92-106 | a frame that is unread, has no 'c', no hand or a zero pixel width leaves the outcome to the following frames |
| Calibration.CaptureEndsWaiting | hand_estimation.py:92-104 | a frame that captures (read, key 'c', a hand, pixel width above 0) ends the loop with the focal length of that hand |
| Calibration.CaptureFocalLength | hand_estimation.py:73-106 | the capture loop returns the focal length of the first capturing frame, as `CaptureOutcome` |
| Calibration.CalibrateOutcome | hand_estimation.py:47-110 | a record exists exactly when the width prompt settles on a width w and a capture yields a focal length f; it is the pair (f, w), both positive |
| Calibration.CalibrateOutcomeSound | hand_estimation.py:92-110 | a completed calibration has positive width and focal length, and the hand of the captured frame (the first capturing one) reads exactly 30 cm |
| Calibration.Calibrate | hand_estimation.py:47-110 | returns the record built from both loops and overwrites the file with it exactly when it completes |
| Calibration.Lower | hand_estimation.py:121 | lower-casing keeps the length and lower-cases each character |
| Calibration.ParseAnswer | hand_estimation.py:121-135 | the lower-cased line `y` means reuse, `n` means recalibrate, anything else is unrecognised; only one-character lines are ever recognised |
| Calibration.AnswerCases | hand_estimation.py:121-135 | the answer is "reuse" if and only if the line is `y` or `Y`, and "recalibrate" if and only if it is `n` or `N` |
| Calibration.PromptAnswer | hand_estimation.py:120-135 | returns the first recognised answer and how many console lines the prompt consumed |
| Calibration.ReuseLoadsStored | hand_estimation.py:122-128 | `y` with a parsable file returns the file's pair unchanged |
| Calibration.CorruptFileRecalibrates | hand_estimation.py:129-131 | `y` with an unparsable file falls back to calibrating on the remaining input |
| Calibration.DeclineRecalibrates | hand_estimation.py:132-133 | `n` calibrates whatever the file holds |
| Calibration.UnrecognisedAnswerReprompts | hand_estimation.py:134-135 | any other answer is discarded and the question asked again |
| Calibration.SavedCalibrationReloads | hand_estimation.py:98-128 | a pair saved by calibration is returned exactly by a later reuse |
| Calibration.CalibrationDataOutcome | hand_estimation.py:112-138 | the reference definition of the dispatch (no file: calibrate; otherwise the first recognised answer decides between loading a parsable file and calibrating on the remaining lines); any record it returns is the stored pair or a positive calibration |
| Calibration.GetCalibrationData | hand_estimation.py:112-138 | returns the dispatch outcome, which calibrates when there is no file, and leaves the file holding the returned record (written by calibration, or already there on reuse), and unchanged when none is returned |
| Runtime.Annotate | hand_estimation.py:171-192 | box drawn if and only if a hand is detected, and it is the box `get_hand_details` computes; distance shown if and only if its pixel width is positive; warning if and only if that distance is strictly below 60 |
| Runtime.TooCloseAfterCalibration | hand_estimation.py:184-192 | after a calibration at p0 pixels, a hand of p > 0 pixels is too close if and only if 2p > p0 |
| Runtime.WarningAfterCalibration | hand_estimation.py:184-192 | on screen, the warning for a detected hand is drawn if and only if twice its pixel width exceeds the calibration pixel width |
| Runtime.WorkedExample | hand_estimation.py:184-192 | 8 cm seen at 120 pixels gives focal 450; 100 pixels reads 36 cm (warned); 60 pixels reads 60 cm (not warned) |
| Runtime.Displayed | hand_estimation.py:160-197 | never shows more overlays than there are frames; with `DisplayedLength`, `ReadFrameShown` and `QuitStopsDisplay` this fixes the overlays exactly |
| Runtime.DisplayedLength | hand_estimation.py:160-197 | when no read frame before the last has key `q`, each read frame is shown exactly once: the overlay count equals the number of frames read |
| Runtime.DisplayedFromReadFrames | hand_estimation.py:160-194 | every overlay shown is the annotation of a frame that was read successfully |
| Runtime.ReadFrameShown | hand_estimation.py:160-194 | every read frame up to the first read `q` frame is shown, at the position counting the read frames before it, so in order |
| Runtime.QuitStopsDisplay | hand_estimation.py:196-197 | a read frame with key `q` ends the loop: nothing after it is shown |
| Runtime.RunEstimation | hand_estimation.py:160-197 | the loop shows exactly the `Displayed` overlays, skipping unread frames without a key check |
| Runtime.RunEstimator | hand_estimation.py:140-202 | runs the estimation loop with the calibration data when it is obtained; the file ends as calibration left it |

## Left out

- Camera capture, mirroring, colour conversion, drawing, `imshow` and window teardown
  (`hand_estimation.py:68-90`, `156-201`). These are I/O; an `Overlay` records what would be drawn.
- The hand-landmark detector. Its per-frame result is an input (`Frame.hand`), as are the three
  landmarks it would report.
- Console I/O and `float()` parsing. Each console line carries its text and its parse result
  (`ConsoleLine.number`). Values `float()` accepts but `real` cannot hold (`nan`, `inf`) are not
  modelled.
- Reading and writing the calibration file as text, and f-string formatting. The file is the value
  `StoredFile`, and writing it stores the pair. Whether the printed float parses back to the same
  double is not modelled.
- IEEE-754 rounding: all arithmetic is exact over `real`.
- Non-termination. The `while True` prompts, the capture loop and the busy retry on failed frame
  reads run over finite input sequences, and running out yields `None`. A camera that never opens,
  or `cap.isOpened()` turning false, is the end of the frame sequence.
- `str.lower()` is modelled on ASCII letters only. For the comparisons with `y` and `n` this gives
  the same verdict as Python's Unicode lower-casing.
- The "no calibration data" exit in `main` (`hand_estimation.py:144-146`). The flow shown cannot
  reach it.
- The console messages printed on each branch.
- DistanceModel.EstimateDistance: returns the real 0.0 where the source returns the integer 0. Both
  compare equal in Python, and the difference is only the printed type.
- DistanceModel.FocalLength: requires a non-zero hand width where the source would raise
  `ZeroDivisionError`. Its only caller has already required a width greater than 0.
