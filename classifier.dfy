/** Per-frame classification of the main face (main.py:42-46, 88-91, 107-113):
    the eye aspect ratio and the eyes-closed test, and the head direction
    read from the nose tip against the frame centre. */
module Classifier {

  /** `EYE_AR_THRESH` (main.py:18). */
  const EyeArThresh: real := 0.25

  /** Half-width of the forward-facing band around the frame centre, in pixels. */
  const DeadZone: real := 50.0

  /** Eye aspect ratio `(A + B) / (2 C)` from the two vertical distances `a`, `b`
      and the horizontal distance `c` of one eye contour (main.py:42-46). A zero
      `c` divides by zero in the source: distances are never negative, so the
      caller must supply `c > 0`. */
  function EyeAspectRatio(a: real, b: real, c: real): (ear: real)
    requires c > 0.0
    ensures a >= 0.0 && b >= 0.0 ==> ear >= 0.0
    ensures ear < EyeArThresh <==> 2.0 * (a + b) < c
  {
    var ear := (a + b) / (2.0 * c);
    assert ear * (2.0 * c) == a + b;
    ScaleStrict(ear, EyeArThresh, 2.0 * c);
    ScaleStrict(0.0, ear, 2.0 * c);
    ear
  }

  /** Multiplying both sides by a positive factor keeps a strict order. */
  lemma ScaleStrict(x: real, y: real, k: real)
    requires k > 0.0
    ensures x < y <==> x * k < y * k
  {
    assert y * k - x * k == (y - x) * k;
  }

  /** The ratio depends only on the shape of the eye, not on its size. */
  lemma EyeAspectRatioScaleInvariant(a: real, b: real, c: real, k: real)
    requires c > 0.0 && k > 0.0
    ensures EyeAspectRatio(k * a, k * b, k * c) == EyeAspectRatio(a, b, c)
  {
    assert (k * a + k * b) == k * (a + b);
    assert 2.0 * (k * c) == k * (2.0 * c);
  }

  /** The mean of the two eyes' ratios (main.py:88). */
  function AverageEar(left: real, right: real): (ear: real)
    ensures ear < EyeArThresh <==> left + right < 2.0 * EyeArThresh
    ensures left <= right ==> left <= ear <= right
    ensures right <= left ==> right <= ear <= left
  {
    (left + right) / 2.0
  }

  /** Eyes count as closed when the averaged ratio is below the threshold (main.py:91). */
  predicate EyesClosed(ear: real)
    ensures EyesClosed(ear) <==> 4.0 * ear < 1.0
  {
    ear < EyeArThresh
  }

  datatype Direction = Forward | LookingLeft | LookingRight

  /** Head direction from the nose tip's pixel x coordinate (main.py:108-113). */
  function Classify(noseX: real, width: nat): (d: Direction)
    ensures d == Forward <==> -DeadZone <= noseX - width as real / 2.0 <= DeadZone
    ensures d == LookingLeft ==> noseX < width as real / 2.0
    ensures d == LookingRight ==> noseX > width as real / 2.0
  {
    var center := width as real / 2.0;
    if noseX < center - DeadZone then LookingLeft
    else if noseX > center + DeadZone then LookingRight
    else Forward
  }

  /** Each direction holds on exactly its own band of nose positions. */
  lemma ClassifyBands(noseX: real, width: nat)
    ensures Classify(noseX, width) == LookingLeft <==> noseX < width as real / 2.0 - DeadZone
    ensures Classify(noseX, width) == LookingRight <==> noseX > width as real / 2.0 + DeadZone
    ensures Classify(noseX, width) == Forward <==>
      width as real / 2.0 - DeadZone <= noseX <= width as real / 2.0 + DeadZone
  {
  }

  /** Left and right swapped. */
  function Mirror(d: Direction): Direction {
    match d
    case Forward => Forward
    case LookingLeft => LookingRight
    case LookingRight => LookingLeft
  }

  /** Reflecting the nose about the frame centre swaps left and right: the
      dead zone is symmetric. */
  lemma ClassifyMirror(noseX: real, width: nat)
    ensures Classify(width as real - noseX, width) == Mirror(Classify(noseX, width))
  {
  }

  /** Position of a direction from left to right. */
  function Rank(d: Direction): nat {
    match d
    case LookingLeft => 0
    case Forward => 1
    case LookingRight => 2
  }

  /** Moving the nose to the right never moves the direction to the left. */
  lemma ClassifyMonotone(x: real, y: real, width: nat)
    requires x <= y
    ensures Rank(Classify(x, width)) <= Rank(Classify(y, width))
  {
  }

  const ForwardText: string := "Forward"
  const NoFaceText: string := "No Face Detected"

  /** The `direction_text` shown for a direction (main.py:109-113). */
  function DirectionText(d: Direction): (text: string)
    ensures text == ForwardText <==> d == Forward
    ensures text != NoFaceText
  {
    match d
    case Forward => ForwardText
    case LookingLeft => "Looking Left"
    case LookingRight => "Looking Right"
  }
}
