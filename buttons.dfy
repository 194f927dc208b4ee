/**
 * The four fixed on-screen buttons and the hit test the selection uses.
 */
module Buttons {
  import opened Pointer

  datatype Button = LeftButton | RightButton | UpButton | DownButton

  const ButtonWidth := 120
  /** Declared alongside the width but never used: the drawn height is 35 + 10 pixels. */
  const ButtonHeight := 65

  /**
   * The anchor of each button: its left edge and the baseline of its label. Every
   * button lies wholly on the 640 x 480 screen.
   */
  function Anchor(b: Button): (a: Cursor)
    ensures b == LeftButton ==> a == Cursor(0, 240)
    ensures b == RightButton ==> a == Cursor(520, 240)
    ensures b == UpButton ==> a == Cursor(265, 35)
    ensures b == DownButton ==> a == Cursor(270, 465)
    ensures 0 <= a.x && a.x + ButtonWidth <= ScreenWidth && 0 <= a.y - 35 && a.y + 10 <= ScreenHeight
  {
    match b
    case LeftButton => Cursor(0, ScreenHeight / 2)
    case RightButton => Cursor(ScreenWidth - 120, ScreenHeight / 2)
    case UpButton => Cursor(ScreenWidth / 2 - 55, 35)
    case DownButton => Cursor(ScreenWidth / 2 - 50, ScreenHeight - 15)
  }

  /** An axis-aligned rectangle with inclusive edges. */
  datatype Rect = Rect(left: int, top: int, right: int, bottom: int)

  predicate Inside(r: Rect, c: Cursor) {
    r.left <= c.x <= r.right && r.top <= c.y <= r.bottom
  }

  /** The rectangle the button is painted as: 35 pixels above the anchor to 10 below it. */
  function DrawnRect(b: Button): Rect {
    var a := Anchor(b);
    Rect(a.x, a.y - 35, a.x + ButtonWidth, a.y + 10)
  }

  /** The hit test for one button, with inclusive bounds; only on-screen points are covered. */
  predicate Covers(b: Button, c: Cursor)
    ensures Covers(b, c) ==> InBounds(c)
  {
    var a := Anchor(b);
    a.x <= c.x <= a.x + ButtonWidth && a.y - 35 <= c.y <= a.y + 10
  }

  /** The region that reacts to a blink is exactly the region painted for the button. */
  lemma HitRegionIsDrawnRegion(b: Button, c: Cursor)
    ensures Covers(b, c) <==> Inside(DrawnRect(b), c)
  {
  }

  /** The cursor is over some button; spelled out, the four rectangles on a 640 x 480 screen. */
  function HitAny(c: Cursor): (hit: bool)
    ensures hit <==> (
      || (0 <= c.x <= 120 && 205 <= c.y <= 250)
      || (520 <= c.x <= 640 && 205 <= c.y <= 250)
      || (265 <= c.x <= 385 && 0 <= c.y <= 45)
      || (270 <= c.x <= 390 && 430 <= c.y <= 475))
  {
    Covers(LeftButton, c) || Covers(RightButton, c) || Covers(UpButton, c) || Covers(DownButton, c)
  }

  /**
   * For a cursor the controller can hold (on the cross and on screen), the hit
   * regions are the outer ends of the horizontal arm and two stretches of the vertical arm.
   */
  lemma HitOnCross(c: Cursor)
    requires OnCross(c) && InBounds(c)
    ensures HitAny(c) <==> (
      || (c.y == CenterY && (c.x <= 120 || 520 <= c.x))
      || (c.x == CenterX && (c.y <= 45 || 430 <= c.y <= 475)))
  {
  }

  /** The starting position, the screen centre, is over no button. */
  lemma CentreHitsNothing()
    ensures !HitAny(Cursor(CenterX, CenterY))
  {
  }
}
