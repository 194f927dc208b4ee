/**
 * The direction decision: from the signed offsets of both eyes, one horizontal
 * and one vertical label for this frame. There is no neutral outcome.
 */
module Gaze {
  import opened Landmarks

  datatype Horizontal = LookLeft | LookRight
  datatype Vertical = LookUp | LookDown

  function Abs(r: real): real {
    if r < 0.0 then -r else r
  }

  /**
   * The eye whose offset has the strictly larger magnitude decides (a tie goes to the
   * right eye), so the label is always the vote of an eye with the largest magnitude. The two eyes read the sign the opposite way: the left eye says Left
   * for a positive offset, the right eye for a negative one.
   */
  function HorizontalDirection(leftX: real, rightX: real): (h: Horizontal)
    ensures || (h == LeftEyeVote(leftX) && Abs(leftX) >= Abs(rightX))
            || (h == RightEyeVote(rightX) && Abs(rightX) >= Abs(leftX))
  {
    if Abs(leftX) > Abs(rightX) then
      (if leftX > 0.0 then LookLeft else LookRight)
    else
      (if rightX < 0.0 then LookLeft else LookRight)
  }

  /** The same rule on the vertical offsets: Up plays the part of Left. */
  function VerticalDirection(leftY: real, rightY: real): (v: Vertical)
    ensures || (v == LeftEyeVerticalVote(leftY) && Abs(leftY) >= Abs(rightY))
            || (v == RightEyeVerticalVote(rightY) && Abs(rightY) >= Abs(leftY))
  {
    if Abs(leftY) > Abs(rightY) then
      (if leftY > 0.0 then LookUp else LookDown)
    else
      (if rightY < 0.0 then LookUp else LookDown)
  }

  /** The labels for one face, read from the gaze offsets of landmarks 155/159 and 386/382. */
  function Directions(face: Face): (d: (Horizontal, Vertical))
    requires WellFormed(face)
    ensures d.0 == HorizontalDirection(face[155].x - face[159].x, face[386].x - face[382].x)
    ensures d.1 == VerticalDirection(face[155].y - face[159].y, face[386].y - face[382].y)
  {
    var o := GazeOffsets(face);
    (HorizontalDirection(o.leftX, o.rightX), VerticalDirection(o.leftY, o.rightY))
  }

  /** The vote of one eye taken alone. */
  function LeftEyeVote(leftX: real): Horizontal {
    if leftX > 0.0 then LookLeft else LookRight
  }

  function RightEyeVote(rightX: real): Horizontal {
    if rightX < 0.0 then LookLeft else LookRight
  }

  function LeftEyeVerticalVote(leftY: real): Vertical {
    if leftY > 0.0 then LookUp else LookDown
  }

  function RightEyeVerticalVote(rightY: real): Vertical {
    if rightY < 0.0 then LookUp else LookDown
  }

  /** The decision is the vote of the eye with the strictly larger offset, the right eye otherwise. */
  lemma DominantEyeDecides(leftX: real, rightX: real)
    ensures Abs(leftX) > Abs(rightX) ==> HorizontalDirection(leftX, rightX) == LeftEyeVote(leftX)
    ensures Abs(leftX) <= Abs(rightX) ==> HorizontalDirection(leftX, rightX) == RightEyeVote(rightX)
  {
  }

  /** On a tie the right eye decides, whatever the sign of the left offset. */
  lemma TieGoesToRightEye(leftX: real, rightX: real)
    requires Abs(leftX) == Abs(rightX)
    ensures HorizontalDirection(leftX, rightX) == RightEyeVote(rightX)
    ensures HorizontalDirection(-leftX, rightX) == HorizontalDirection(leftX, rightX)
  {
  }

  /** A dominated eye has no say: changing its offset within the dominant magnitude changes nothing. */
  lemma DominatedEyeIgnored(leftX: real, rightX: real, leftX': real, rightX': real)
    ensures Abs(leftX) > Abs(rightX) && Abs(leftX) > Abs(rightX')
            ==> HorizontalDirection(leftX, rightX) == HorizontalDirection(leftX, rightX')
    ensures Abs(rightX) >= Abs(leftX) && Abs(rightX) >= Abs(leftX')
            ==> HorizontalDirection(leftX, rightX) == HorizontalDirection(leftX', rightX)
  {
  }

  /** The vertical decision is the horizontal rule applied to the vertical offsets. */
  lemma VerticalMirrorsHorizontal(leftY: real, rightY: real)
    ensures VerticalDirection(leftY, rightY) == LookUp <==> HorizontalDirection(leftY, rightY) == LookLeft
  {
  }

  /**
   * The opposite sign conventions: when both eyes report the same positive offset
   * with different magnitudes, the label depends on which eye is larger.
   */
  lemma SameOffsetOppositeVotes(a: real, b: real)
    requires 0.0 < b < a
    ensures HorizontalDirection(a, b) == LookLeft
    ensures HorizontalDirection(b, a) == LookRight
  {
  }

  /** No neutral outcome: a perfectly centred gaze still reads as Right and Down. */
  lemma CentredGazeReadsRightDown()
    ensures HorizontalDirection(0.0, 0.0) == LookRight
    ensures VerticalDirection(0.0, 0.0) == LookDown
  {
  }
}
