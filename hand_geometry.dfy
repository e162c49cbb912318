/** The geometry extractor of hand_estimation.py (`get_hand_details`): three normalised palm
    landmarks are scaled to pixels, and the truncated minimum and maximum of their coordinates give
    an axis-aligned bounding box and a pixel width. */
module HandGeometry {

  /** A landmark in normalised image coordinates (nominally in [0, 1], but the detector may report
      points slightly outside the frame, so any real is allowed). */
  datatype Point = Point(x: real, y: real)

  /** The three landmarks the source reads: WRIST, INDEX_FINGER_MCP and PINKY_MCP. */
  datatype Palm = Palm(wrist: Point, indexMcp: Point, pinkyMcp: Point)

  datatype BoundingBox = BoundingBox(xMin: int, yMin: int, xMax: int, yMax: int)

  /** What `get_hand_details` returns: the pixel width and the box. */
  datatype HandDetails = HandDetails(pixelWidth: int, box: BoundingBox)

  /** Python's `int()` on a float: truncation toward zero, which is not the floor for negatives. */
  function Trunc(r: real): (n: int)
    ensures 0.0 <= r ==> n as real <= r < n as real + 1.0
    ensures r < 0.0 ==> n as real - 1.0 < r <= n as real
  {
    if r >= 0.0 then r.Floor else -((-r).Floor)
  }

  lemma TruncMonotone(a: real, b: real)
    requires a <= b
    ensures Trunc(a) <= Trunc(b)
  {
  }

  function Abs(n: int): (r: int)
    ensures r >= 0 && (r == n || r == -n)
  {
    if n < 0 then -n else n
  }

  function Min3(a: real, b: real, c: real): (m: real)
    ensures m <= a && m <= b && m <= c
    ensures m == a || m == b || m == c
  {
    if a <= b && a <= c then a else if b <= c then b else c
  }

  function Max3(a: real, b: real, c: real): (m: real)
    ensures m >= a && m >= b && m >= c
    ensures m == a || m == b || m == c
  {
    if a >= b && a >= c then a else if b >= c then b else c
  }

  /** The three landmarks in the order the source lists them. */
  function Landmarks(palm: Palm): (s: seq<Point>)
    ensures |s| == 3
  {
    [palm.wrist, palm.indexMcp, palm.pinkyMcp]
  }

  /** Horizontal pixel coordinate of a landmark, before truncation. */
  function PixelX(p: Point, imageWidth: int): real
  {
    p.x * imageWidth as real
  }

  /** Vertical pixel coordinate of a landmark, before truncation. */
  function PixelY(p: Point, imageHeight: int): real
  {
    p.y * imageHeight as real
  }

  /** `get_hand_details`: the box is always ordered, and the pixel width is its horizontal extent. */
  function GetHandDetails(palm: Palm, imageWidth: int, imageHeight: int): (d: HandDetails)
    ensures d.box.xMin <= d.box.xMax && d.box.yMin <= d.box.yMax
    ensures d.pixelWidth >= 0 && d.pixelWidth == d.box.xMax - d.box.xMin
  {
    var (w, i, p) := (palm.wrist, palm.indexMcp, palm.pinkyMcp);
    var loX := Min3(PixelX(w, imageWidth), PixelX(i, imageWidth), PixelX(p, imageWidth));
    var hiX := Max3(PixelX(w, imageWidth), PixelX(i, imageWidth), PixelX(p, imageWidth));
    var loY := Min3(PixelY(w, imageHeight), PixelY(i, imageHeight), PixelY(p, imageHeight));
    var hiY := Max3(PixelY(w, imageHeight), PixelY(i, imageHeight), PixelY(p, imageHeight));
    TruncMonotone(loX, hiX);
    TruncMonotone(loY, hiY);
    var box := BoundingBox(Trunc(loX), Trunc(loY), Trunc(hiX), Trunc(hiY));
    HandDetails(Abs(box.xMax - box.xMin), box)
  }

  /** Truncating the extremes is the same as taking the extremes of the truncated points: the box is
      the tightest integer box around the three landmarks after `int()`, each corner attained. */
  lemma {:induction false} BoxIsTruncatedHull(palm: Palm, imageWidth: int, imageHeight: int)
    ensures var b := GetHandDetails(palm, imageWidth, imageHeight).box;
      && (forall k :: 0 <= k < 3 ==>
            b.xMin <= Trunc(PixelX(Landmarks(palm)[k], imageWidth)) <= b.xMax
            && b.yMin <= Trunc(PixelY(Landmarks(palm)[k], imageHeight)) <= b.yMax)
      && (exists k :: 0 <= k < 3 && b.xMin == Trunc(PixelX(Landmarks(palm)[k], imageWidth)))
      && (exists k :: 0 <= k < 3 && b.xMax == Trunc(PixelX(Landmarks(palm)[k], imageWidth)))
      && (exists k :: 0 <= k < 3 && b.yMin == Trunc(PixelY(Landmarks(palm)[k], imageHeight)))
      && (exists k :: 0 <= k < 3 && b.yMax == Trunc(PixelY(Landmarks(palm)[k], imageHeight)))
  {
    var s := Landmarks(palm);
    var xs := [PixelX(s[0], imageWidth), PixelX(s[1], imageWidth), PixelX(s[2], imageWidth)];
    var ys := [PixelY(s[0], imageHeight), PixelY(s[1], imageHeight), PixelY(s[2], imageHeight)];
    var loX, hiX := Min3(xs[0], xs[1], xs[2]), Max3(xs[0], xs[1], xs[2]);
    var loY, hiY := Min3(ys[0], ys[1], ys[2]), Max3(ys[0], ys[1], ys[2]);
    forall k | 0 <= k < 3
      ensures Trunc(loX) <= Trunc(xs[k]) <= Trunc(hiX) && Trunc(loY) <= Trunc(ys[k]) <= Trunc(hiY)
    {
      TruncMonotone(loX, xs[k]);
      TruncMonotone(xs[k], hiX);
      TruncMonotone(loY, ys[k]);
      TruncMonotone(ys[k], hiY);
    }
    var kMinX := if loX == xs[0] then 0 else if loX == xs[1] then 1 else 2;
    var kMaxX := if hiX == xs[0] then 0 else if hiX == xs[1] then 1 else 2;
    var kMinY := if loY == ys[0] then 0 else if loY == ys[1] then 1 else 2;
    var kMaxY := if hiY == ys[0] then 0 else if hiY == ys[1] then 1 else 2;
    assert Trunc(loX) == Trunc(PixelX(s[kMinX], imageWidth));
    assert Trunc(hiX) == Trunc(PixelX(s[kMaxX], imageWidth));
    assert Trunc(loY) == Trunc(PixelY(s[kMinY], imageHeight));
    assert Trunc(hiY) == Trunc(PixelY(s[kMaxY], imageHeight));
  }

  /** The pixel width spans all three landmarks, the wrist included, so it is never less than the
      truncated distance between the index and pinky knuckles. */
  lemma PixelWidthCoversKnuckles(palm: Palm, imageWidth: int, imageHeight: int)
    ensures GetHandDetails(palm, imageWidth, imageHeight).pixelWidth
            >= Abs(Trunc(PixelX(palm.indexMcp, imageWidth)) - Trunc(PixelX(palm.pinkyMcp, imageWidth)))
  {
    BoxIsTruncatedHull(palm, imageWidth, imageHeight);
    assert Landmarks(palm)[1] == palm.indexMcp && Landmarks(palm)[2] == palm.pinkyMcp;
  }

  /** A wrist lying outside the knuckles widens the measurement: on a 100-pixel-wide frame with the
      knuckles 10 pixels apart the pixel width is 50. */
  lemma WristWidensPixelWidth()
    ensures var palm := Palm(Point(0.1, 0.9), Point(0.5, 0.3), Point(0.6, 0.3));
      && Abs(Trunc(PixelX(palm.indexMcp, 100)) - Trunc(PixelX(palm.pinkyMcp, 100))) == 10
      && GetHandDetails(palm, 100, 100).pixelWidth == 50
  {
  }

  /** When every scaled x-coordinate is non-negative (the landmarks are inside the frame), truncation
      loses less than one pixel of the real horizontal span. */
  lemma PixelWidthNearSpan(palm: Palm, imageWidth: int, imageHeight: int)
    requires PixelX(palm.wrist, imageWidth) >= 0.0
    requires PixelX(palm.indexMcp, imageWidth) >= 0.0
    requires PixelX(palm.pinkyMcp, imageWidth) >= 0.0
    ensures var span := Max3(PixelX(palm.wrist, imageWidth), PixelX(palm.indexMcp, imageWidth), PixelX(palm.pinkyMcp, imageWidth))
                      - Min3(PixelX(palm.wrist, imageWidth), PixelX(palm.indexMcp, imageWidth), PixelX(palm.pinkyMcp, imageWidth));
      span - 1.0 < GetHandDetails(palm, imageWidth, imageHeight).pixelWidth as real < span + 1.0
  {
  }
}
