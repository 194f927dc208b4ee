/**
 * Face landmarks as delivered by the face-mesh detector, and the two signals the
 * controller derives from one face: the gaze offsets of both eyes and the blink flag.
 */
module Landmarks {

  /** One normalised landmark: x and y are fractions of the image width and height. */
  datatype Point = Point(x: real, y: real)

  /** The landmarks of one detected face, indexed by the detector's landmark id. */
  type Face = seq<Point>

  // Landmark ids the controller reads.
  const LeftEyeTop := 159
  const LeftEyeBottom := 145
  const RightEyeTop := 386
  const RightEyeBottom := 374

  /** The exclusive ends of the two descending landmark ranges that form the eye lists. */
  const LeftRingStop := 144
  const RightRingStop := 374

  /** The list element used as the pupil proxy (landmark 155 on the left, 382 on the right). */
  const PupilSlot := 4

  /** The highest id read is 386, so a face needs at least 387 landmarks (the detector gives 468). */
  const MinLandmarks := 387

  predicate WellFormed(face: Face) {
    |face| >= MinLandmarks
  }

  /**
   * The list [face[start], face[start - 1], ..., face[stop + 1]], which is what
   * a comprehension over range(start, stop, -1) builds.
   */
  function DescendingRange(face: Face, start: int, stop: int): (ring: seq<Point>)
    requires -1 <= stop && start < |face|
    ensures |ring| == if start <= stop then 0 else start - stop
    ensures forall k :: 0 <= k < |ring| ==> ring[k] == face[start - k]
  {
    if start <= stop then [] else seq(start - stop, k requires 0 <= k < start - stop => face[start - k])
  }

  /** Signed gaze offsets of both eyes on both axes, in normalised image units. */
  datatype Offsets = Offsets(leftX: real, leftY: real, rightX: real, rightY: real)

  /**
   * The gaze offsets. Each eye's list starts at its upper-lid landmark, which serves as
   * the eye's "centre"; the pupil proxy is list element 4. The left eye measures
   * proxy minus centre, the right eye centre minus proxy.
   */
  function GazeOffsets(face: Face): (o: Offsets)
    requires WellFormed(face)
    ensures o.leftX == face[155].x - face[159].x && o.leftY == face[155].y - face[159].y
    ensures o.rightX == face[386].x - face[382].x && o.rightY == face[386].y - face[382].y
  {
    var left := DescendingRange(face, LeftEyeTop, LeftRingStop);
    var right := DescendingRange(face, RightEyeTop, RightRingStop);
    var leftCenter := left[0];
    var rightCenter := right[0];
    Offsets(left[PupilSlot].x - leftCenter.x, left[PupilSlot].y - leftCenter.y,
            rightCenter.x - right[PupilSlot].x, rightCenter.y - right[PupilSlot].y)
  }

  /** The two eye lists hold 15 and 12 landmarks, the slots used are the ids named above. */
  lemma EyeListsShape(face: Face)
    requires WellFormed(face)
    ensures |DescendingRange(face, LeftEyeTop, LeftRingStop)| == 15
    ensures |DescendingRange(face, RightEyeTop, RightRingStop)| == 12
    ensures DescendingRange(face, LeftEyeTop, LeftRingStop)[0] == face[159]
    ensures DescendingRange(face, LeftEyeTop, LeftRingStop)[PupilSlot] == face[155]
    ensures DescendingRange(face, RightEyeTop, RightRingStop)[0] == face[386]
    ensures DescendingRange(face, RightEyeTop, RightRingStop)[PupilSlot] == face[382]
  {
  }

  /** Only landmarks 0..386 are read: the rest of the face does not change any signal. */
  lemma SignalsReadOnlyPrefix(face: Face, other: Face)
    requires WellFormed(face) && WellFormed(other)
    requires forall i :: 0 <= i < MinLandmarks ==> face[i] == other[i]
    ensures GazeOffsets(face) == GazeOffsets(other)
    ensures Blink(face) == Blink(other)
  {
    var a, b := GazeOffsets(face), GazeOffsets(other);
    assert face[155] == other[155] && face[159] == other[159];
    assert face[382] == other[382] && face[386] == other[386];
    assert a.leftX == b.leftX && a.leftY == b.leftY && a.rightX == b.rightX && a.rightY == b.rightY;
    assert face[145] == other[145] && face[374] == other[374];
  }

  /** The blink threshold on the eyelid distance, in normalised units. */
  const BlinkThreshold: real := 0.01

  function SquaredDistance(a: Point, b: Point): (d: real)
    ensures d >= 0.0
  {
    (a.x - b.x) * (a.x - b.x) + (a.y - b.y) * (a.y - b.y)
  }

  /**
   * The lids of one eye are (nearly) closed: their Euclidean distance is below the
   * threshold. Both sides are non-negative, so the distances are compared squared.
   */
  predicate EyelidClosed(top: Point, bottom: Point)
    ensures top == bottom ==> EyelidClosed(top, bottom)
    ensures EyelidClosed(top, bottom) ==> AxisGapsBelowThreshold(top, bottom)
  {
    var closed := SquaredDistance(top, bottom) < BlinkThreshold * BlinkThreshold;
    if closed then SmallDistanceSmallGaps(top, bottom); closed else closed
  }

  /** Each coordinate of the two points differs by less than the threshold. */
  predicate AxisGapsBelowThreshold(top: Point, bottom: Point) {
    -BlinkThreshold < top.x - bottom.x < BlinkThreshold && -BlinkThreshold < top.y - bottom.y < BlinkThreshold
  }

  /** A lid distance below the threshold bounds each coordinate gap by it. */
  lemma SmallDistanceSmallGaps(top: Point, bottom: Point)
    requires SquaredDistance(top, bottom) < BlinkThreshold * BlinkThreshold
    ensures AxisGapsBelowThreshold(top, bottom)
  {
    var t, dx, dy := BlinkThreshold, top.x - bottom.x, top.y - bottom.y;
    assert SquaredDistance(top, bottom) == dx * dx + dy * dy;
    assert dx * dx >= 0.0 && dy * dy >= 0.0;
    assert dx * dx < t * t && dy * dy < t * t;
  }

  /** A blink: either eye's lid distance is below the threshold. */
  predicate Blink(face: Face)
    requires WellFormed(face)
    ensures face[LeftEyeTop] == face[LeftEyeBottom] || face[RightEyeTop] == face[RightEyeBottom] ==> Blink(face)
    ensures Blink(face) ==> (|| AxisGapsBelowThreshold(face[LeftEyeTop], face[LeftEyeBottom])
                             || AxisGapsBelowThreshold(face[RightEyeTop], face[RightEyeBottom]))
  {
    EyelidClosed(face[LeftEyeTop], face[LeftEyeBottom]) || EyelidClosed(face[RightEyeTop], face[RightEyeBottom])
  }

  /**
   * The squared comparison agrees with the Python program's hypot comparison: for the
   * Euclidean distance h of the two lids, the lids count as closed exactly when h < 0.01.
   */
  lemma ClosedIffHypotBelowThreshold(top: Point, bottom: Point, h: real)
    requires h >= 0.0 && h * h == SquaredDistance(top, bottom)
    ensures EyelidClosed(top, bottom) <==> h < BlinkThreshold
  {
    var t := BlinkThreshold;
    if h < t {
      assert h * h <= h * t;
      assert h * t < t * t;
    } else {
      assert h * h >= h * t;
      assert h * t >= t * t;
    }
  }
}
