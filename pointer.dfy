/**
 * The on-screen pointer: a fixed step per axis for each face, then a snap onto the
 * cross through the screen centre, then a clamp to the screen.
 */
module Pointer {
  import opened Gaze

  const ScreenWidth := 640
  const ScreenHeight := 480
  const CenterX := ScreenWidth / 2
  const CenterY := ScreenHeight / 2

  /** Pixels moved per axis and per face. */
  const Step := 5

  datatype Cursor = Cursor(x: int, y: int)

  predicate OnCross(c: Cursor) {
    c.x == CenterX || c.y == CenterY
  }

  predicate InBounds(c: Cursor) {
    0 <= c.x <= ScreenWidth && 0 <= c.y <= ScreenHeight
  }

  function IntAbs(n: int): nat {
    if n < 0 then -n else n
  }

  function HorizontalDelta(h: Horizontal): int {
    if h == LookLeft then -Step else Step
  }

  function VerticalDelta(v: Vertical): int {
    if v == LookUp then -Step else Step
  }

  /** The unlocked move: exactly one step on each axis, Left and Up towards smaller coordinates. */
  function Move(c: Cursor, h: Horizontal, v: Vertical): (r: Cursor)
    ensures IntAbs(r.x - c.x) == Step && IntAbs(r.y - c.y) == Step
    ensures r.x < c.x <==> h == LookLeft
    ensures r.y < c.y <==> v == LookUp
  {
    Cursor(c.x + HorizontalDelta(h), c.y + VerticalDelta(v))
  }

  /** Taxicab distance between two cursor positions. */
  function Distance(a: Cursor, b: Cursor): nat {
    IntAbs(a.x - b.x) + IntAbs(a.y - b.y)
  }

  /**
   * The cross lock: the coordinate nearer its centre line collapses onto it; when the
   * horizontal deviation is not strictly larger, x is the one reset.
   */
  function Lock(c: Cursor): (r: Cursor)
    ensures OnCross(r)
    ensures r.x == c.x || r.y == c.y
    ensures Distance(c, r) == if IntAbs(c.x - CenterX) > IntAbs(c.y - CenterY)
                              then IntAbs(c.y - CenterY) else IntAbs(c.x - CenterX)
  {
    if IntAbs(c.x - CenterX) > IntAbs(c.y - CenterY) then Cursor(c.x, CenterY) else Cursor(CenterX, c.y)
  }

  /** The lock moves the cursor to a nearest point of the cross. */
  lemma LockIsNearest(c: Cursor, p: Cursor)
    requires OnCross(p)
    ensures Distance(c, Lock(c)) <= Distance(c, p)
  {
  }

  /** On a tie the cursor lands on the vertical line. */
  lemma TieSnapsX(c: Cursor)
    requires IntAbs(c.x - CenterX) == IntAbs(c.y - CenterY)
    ensures Lock(c) == Cursor(CenterX, c.y)
  {
  }

  function Clamp(v: int, lo: int, hi: int): (r: int)
    requires lo <= hi
    ensures lo <= r <= hi
    ensures lo <= v <= hi ==> r == v
    ensures v < lo ==> r == lo
    ensures v > hi ==> r == hi
  {
    if v < lo then lo else if v > hi then hi else v
  }

  /** Each coordinate clamped to the screen: the on-screen point nearest to `c`. */
  function ClampToScreen(c: Cursor): (r: Cursor)
    ensures InBounds(r)
    ensures InBounds(c) ==> r == c
    ensures c.x < 0 ==> r.x == 0
    ensures c.x > ScreenWidth ==> r.x == ScreenWidth
    ensures 0 <= c.x <= ScreenWidth ==> r.x == c.x
    ensures c.y < 0 ==> r.y == 0
    ensures c.y > ScreenHeight ==> r.y == ScreenHeight
    ensures 0 <= c.y <= ScreenHeight ==> r.y == c.y
    ensures forall p :: InBounds(p) ==> Distance(c, r) <= Distance(c, p)
  {
    Cursor(Clamp(c.x, 0, ScreenWidth), Clamp(c.y, 0, ScreenHeight))
  }

  /** The centre lines lie inside the screen, so clamping cannot undo the lock. */
  lemma ClampKeepsCross(c: Cursor)
    requires OnCross(c)
    ensures OnCross(ClampToScreen(c))
  {
  }

  /** One face's effect on the cursor: move, lock onto the cross, clamp. */
  function MoveLockClamp(c: Cursor, h: Horizontal, v: Vertical): (r: Cursor)
    ensures OnCross(r) && InBounds(r)
  {
    ClampKeepsCross(Lock(Move(c, h, v)));
    ClampToScreen(Lock(Move(c, h, v)))
  }

  /** Lock then clamp leaves a cursor that is on the cross and on screen where it is. */
  lemma LockClampIdempotent(c: Cursor)
    requires OnCross(c) && InBounds(c)
    ensures ClampToScreen(Lock(c)) == c
  {
  }

  /** The first step from the exact centre always ends on the vertical line, one step up or down. */
  lemma FirstStepFromCentre(h: Horizontal, v: Vertical)
    ensures MoveLockClamp(Cursor(CenterX, CenterY), h, v) == Cursor(CenterX, CenterY + VerticalDelta(v))
  {
  }

  /** Two steps or more from the centre, the vertical arm keeps the cursor: it only travels along it. */
  lemma VerticalArmSticky(c: Cursor, h: Horizontal, v: Vertical)
    requires c.x == CenterX && IntAbs(c.y - CenterY) >= 2 * Step
    ensures MoveLockClamp(c, h, v) == Cursor(CenterX, Clamp(c.y + VerticalDelta(v), 0, ScreenHeight))
  {
  }

  /**
   * The horizontal arm needs three steps of distance to keep the cursor: at two steps,
   * a move towards the centre ties and the cursor jumps to the vertical line.
   */
  lemma HorizontalArmSticky(c: Cursor, h: Horizontal, v: Vertical)
    requires c.y == CenterY && IntAbs(c.x - CenterX) >= 3 * Step
    ensures MoveLockClamp(c, h, v) == Cursor(Clamp(c.x + HorizontalDelta(h), 0, ScreenWidth), CenterY)
  {
  }

  lemma HorizontalArmTieAtTwoSteps(v: Vertical)
    ensures MoveLockClamp(Cursor(CenterX + 2 * Step, CenterY), LookLeft, v) == Cursor(CenterX, CenterY + VerticalDelta(v))
  {
  }
}
