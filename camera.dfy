/** What one pass of a capture loop in hand_estimation.py sees: whether `cap.read()` delivered a
    frame, what the hand detector found in it, the frame size, and the key code `cv2.waitKey(5)`
    returned after the frame was shown. The camera and the detector themselves are not modelled. */
module Camera {
  import opened Wrappers
  import opened HandGeometry

  datatype Frame = Frame(read: bool, hand: Option<Palm>, width: int, height: int, key: int)

  /** `cv2.waitKey(5) & 0xFF == ord(c)`. For a positive mask Python's `&` with 0xFF and Dafny's
      Euclidean `% 256` agree on negative codes too (no key pressed is -1, which masks to 255). */
  function KeyIs(code: int, c: char): (pressed: bool)
    ensures pressed ==> 0 <= c as int < 256
    ensures code == -1 ==> !pressed || c as int == 255
    ensures 0 <= code < 256 ==> (pressed <==> code == c as int)
  {
    code % 256 == c as int
  }

  /** The pixel width `get_hand_details` reports for the hand of a frame that has one. */
  function PixelWidthOf(f: Frame): (p: int)
    requires f.hand.Some?
    ensures p >= 0
  {
    GetHandDetails(f.hand.value, f.width, f.height).pixelWidth
  }
}
