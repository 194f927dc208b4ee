/**
 * What the display shows about the selection, and the frame-rate figure.
 */
module Selection {
  import opened Options

  /** Nothing, the large centred "SELECTED" banner, or the small "MODE: SELECTED" corner text. */
  datatype Display = NoIndicator | Banner | CornerIndicator

  /** Seconds the banner stays up after the last selection. */
  const BannerSeconds: real := 2.0

  /**
   * The display for a selection state at time `now`. A selected state always carries
   * its start time (the controller keeps that invariant).
   */
  function DisplayFor(selected: bool, start: Option<real>, now: real): (d: Display)
    requires selected ==> start.Some?
    ensures d == NoIndicator <==> !selected
    ensures d == Banner <==> selected && now < start.value + BannerSeconds
  {
    if !selected then NoIndicator
    else if now - start.value < BannerSeconds then Banner
    else CornerIndicator
  }

  /** Exactly two seconds after the selection the corner indicator already shows. */
  lemma CornerAtExactlyTwoSeconds(start: real)
    ensures DisplayFor(true, Some(start), start + BannerSeconds) == CornerIndicator
    ensures forall now :: start <= now < start + BannerSeconds ==> DisplayFor(true, Some(start), now) == Banner
  {
  }

  /** Once the corner indicator shows, it keeps showing at every later time until the next selection. */
  lemma CornerPersists(start: real, now: real, later: real)
    requires now <= later
    requires DisplayFor(true, Some(start), now) == CornerIndicator
    ensures DisplayFor(true, Some(start), later) == CornerIndicator
  {
  }

  /**
   * Frames per second from two wall-clock readings. The reciprocal of their difference;
   * `None` where the difference is zero, where the Python program raises a division error.
   */
  function FrameRate(now: real, previous: real): (fps: Option<real>)
    ensures fps.Some? <==> now != previous
    ensures fps.Some? ==> fps.value * (now - previous) == 1.0
  {
    if now == previous then None else Some(1.0 / (now - previous))
  }
}
