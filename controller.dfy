/**
 * The per-frame gaze controller: the cursor, the selection state and the previous
 * frame time, updated once per detected face and once per frame.
 */
module Controller {
  import opened Options
  import opened Landmarks
  import opened Gaze
  import opened Pointer
  import opened Buttons
  import opened Selection

  /** The controller's state as a value: the cursor and the selection with its start time. */
  datatype State = State(cursor: Cursor, selected: bool, selectedStart: Option<real>)

  /** The cursor sits on the cross and on screen; a start time is recorded exactly when selected. */
  predicate Consistent(s: State) {
    OnCross(s.cursor) && InBounds(s.cursor) && (s.selected <==> s.selectedStart.Some?)
  }

  /** Cursor at the screen centre, nothing selected, no start time. */
  const Initial := State(Cursor(CenterX, CenterY), false, None)

  /** A blink over a button (at the cursor as it stands) selects and restarts the timer. */
  function Select(s: State, blink: bool, now: real): (r: State)
    ensures r.cursor == s.cursor
    ensures r.selected <==> s.selected || (blink && HitAny(s.cursor))
    ensures blink && HitAny(s.cursor) ==> r.selectedStart == Some(now)
    ensures !(blink && HitAny(s.cursor)) ==> r.selectedStart == s.selectedStart
  {
    if blink && HitAny(s.cursor) then s.(selected := true, selectedStart := Some(now)) else s
  }

  /**
   * One detected face: the selection is decided on the cursor before this face's move,
   * then the cursor moves, locks and clamps. `now` is the clock reading for this face.
   * The new cursor depends only on the old cursor and the face's labels.
   */
  function FaceUpdate(s: State, face: Face, now: real): (r: State)
    requires WellFormed(face)
    ensures OnCross(r.cursor) && InBounds(r.cursor)
    ensures r.selected <==> s.selected || (Blink(face) && HitAny(s.cursor))
    ensures r.selectedStart == s.selectedStart || r.selectedStart == Some(now)
  {
    var (h, v) := Directions(face);
    Select(s, Blink(face), now).(cursor := MoveLockClamp(s.cursor, h, v))
  }

  predicate AllWellFormed(faces: seq<Face>) {
    forall i :: 0 <= i < |faces| ==> WellFormed(faces[i])
  }

  /**
   * The faces of one frame applied in order, each with its own clock reading. With no
   * face the state stays as it was; after any face the cursor is on the cross and on screen.
   */
  function Run(s: State, faces: seq<Face>, times: seq<real>): (r: State)
    requires |times| == |faces| && AllWellFormed(faces)
    ensures |faces| == 0 ==> r == s
    ensures |faces| > 0 ==> OnCross(r.cursor) && InBounds(r.cursor)
    decreases |faces|
  {
    if |faces| == 0 then s
    else
      var n := |faces| - 1;
      FaceUpdate(Run(s, faces[..n], times[..n]), faces[n], times[n])
  }

  lemma InitialConsistent()
    ensures Consistent(Initial)
    ensures DisplayFor(Initial.selected, Initial.selectedStart, 0.0) == NoIndicator
  {
  }

  /** A face update keeps the cursor on the cross and on screen and the start time in step. */
  lemma FaceUpdateKeepsConsistent(s: State, face: Face, now: real)
    requires WellFormed(face) && Consistent(s)
    ensures Consistent(FaceUpdate(s, face, now))
  {
  }

  /** A blink over a button selects and restarts the timer, even when already selected. */
  lemma BlinkOverButtonSelects(s: State, face: Face, now: real)
    requires WellFormed(face) && Blink(face) && HitAny(s.cursor)
    ensures FaceUpdate(s, face, now).selected
    ensures FaceUpdate(s, face, now).selectedStart == Some(now)
  {
  }

  /** Any other face leaves the selection and its start time as they were. */
  lemma OtherFacesKeepSelection(s: State, face: Face, now: real)
    requires WellFormed(face) && !(Blink(face) && HitAny(s.cursor))
    ensures FaceUpdate(s, face, now).selected == s.selected
    ensures FaceUpdate(s, face, now).selectedStart == s.selectedStart
  {
  }

  /**
   * The hit test reads the cursor before the move: a blink on the right edge of the
   * left button while looking right selects, although the cursor then leaves the button.
   */
  lemma SelectionUsesPreMoveCursor(s: State, face: Face, now: real)
    requires WellFormed(face) && Blink(face) && Directions(face).0 == LookRight
    requires s.cursor == Cursor(120, CenterY)
    ensures FaceUpdate(s, face, now).selected
    ensures FaceUpdate(s, face, now).cursor == Cursor(125, CenterY)
    ensures !HitAny(FaceUpdate(s, face, now).cursor)
  {
  }

  lemma {:induction false} RunKeepsConsistent(s: State, faces: seq<Face>, times: seq<real>)
    requires |times| == |faces| && AllWellFormed(faces)
    requires Consistent(s)
    ensures Consistent(Run(s, faces, times))
    decreases |faces|
  {
    if |faces| > 0 {
      var n := |faces| - 1;
      RunKeepsConsistent(s, faces[..n], times[..n]);
      FaceUpdateKeepsConsistent(Run(s, faces[..n], times[..n]), faces[n], times[n]);
    }
  }

  /** `selected` never returns to false. */
  lemma {:induction false} RunSelectedMonotone(s: State, faces: seq<Face>, times: seq<real>)
    requires |times| == |faces| && AllWellFormed(faces)
    requires s.selected
    ensures Run(s, faces, times).selected
    decreases |faces|
  {
    if |faces| > 0 {
      var n := |faces| - 1;
      RunSelectedMonotone(s, faces[..n], times[..n]);
    }
  }

  /** The start time after a run is the one before it or the clock reading of one of its faces. */
  lemma {:induction false} RunStartIsAReading(s: State, faces: seq<Face>, times: seq<real>)
    requires |times| == |faces| && AllWellFormed(faces)
    ensures Run(s, faces, times).selectedStart == s.selectedStart
            || exists i :: 0 <= i < |times| && Run(s, faces, times).selectedStart == Some(times[i])
    decreases |faces|
  {
    if |faces| > 0 {
      var n := |faces| - 1;
      RunStartIsAReading(s, faces[..n], times[..n]);
      var before := Run(s, faces[..n], times[..n]);
      if before.selectedStart != s.selectedStart {
        var i :| 0 <= i < n && before.selectedStart == Some(times[..n][i]);
        assert times[..n][i] == times[i];
      }
    }
  }

  /** A frame without faces changes neither the cursor nor the selection. */
  lemma NoFaceRunUnchanged(s: State)
    ensures Run(s, [], []) == s
  {
  }

  /**
   * The controller object. The fields are the module-level variables of the Python program: the
   * cursor, the selection flag with its start time, and the previous frame's time.
   */
  class GazeController {
    var pointX: int
    var pointY: int
    var selected: bool
    var selectedStartTime: Option<real>
    var prevFrameTime: real

    /** The state as a value. */
    function Snapshot(): State
      reads this
    {
      State(Cursor(pointX, pointY), selected, selectedStartTime)
    }

    ghost predicate Valid()
      reads this
    {
      Consistent(Snapshot())
    }

    constructor ()
      ensures Valid() && Snapshot() == Initial && prevFrameTime == 0.0
    {
      pointX, pointY := ScreenWidth / 2, ScreenHeight / 2;
      selected := false;
      selectedStartTime := None;
      prevFrameTime := 0.0;
    }

    /** The update for one detected face; returns the two labels shown on screen. */
    method FaceStep(face: Face, now: real) returns (h: Horizontal, v: Vertical)
      requires Valid() && WellFormed(face)
      modifies this`pointX, this`pointY, this`selected, this`selectedStartTime
      ensures Valid()
      ensures Snapshot() == FaceUpdate(old(Snapshot()), face, now)
      ensures (h, v) == Directions(face)
    {
      ghost var before := Snapshot();
      if Blink(face) && HitAny(Cursor(pointX, pointY)) {
        selected := true;
        selectedStartTime := Some(now);
      }
      ghost var selection := Select(before, Blink(face), now);
      assert selected == selection.selected && selectedStartTime == selection.selectedStart;

      var o := GazeOffsets(face);
      h := HorizontalDirection(o.leftX, o.rightX);
      v := VerticalDirection(o.leftY, o.rightY);

      if h == LookLeft {
        pointX := pointX - Step;
      } else {
        pointX := pointX + Step;
      }
      if v == LookUp {
        pointY := pointY - Step;
      } else {
        pointY := pointY + Step;
      }
      ghost var moved := Move(before.cursor, h, v);
      assert Cursor(pointX, pointY) == moved;

      if IntAbs(pointX - CenterX) > IntAbs(pointY - CenterY) {
        pointY := CenterY;
      } else {
        pointX := CenterX;
      }
      assert Cursor(pointX, pointY) == Lock(moved);

      pointX := Clamp(pointX, 0, ScreenWidth);
      pointY := Clamp(pointY, 0, ScreenHeight);
      assert Cursor(pointX, pointY) == MoveLockClamp(before.cursor, h, v);
      FaceUpdateKeepsConsistent(before, face, now);
    }

    /** The end of every frame: the selection display, then the frame rate. */
    method EndFrame(displayTime: real, frameTime: real) returns (display: Display, fps: Option<real>)
      requires Valid()
      modifies this`prevFrameTime
      ensures display == DisplayFor(selected, selectedStartTime, displayTime)
      ensures fps == FrameRate(frameTime, old(prevFrameTime))
      ensures prevFrameTime == frameTime
    {
      display := DisplayFor(selected, selectedStartTime, displayTime);
      fps := FrameRate(frameTime, prevFrameTime);
      prevFrameTime := frameTime;
    }

    /** Every detected face of one frame, in order, each with its own clock reading. */
    method ApplyFaces(faces: seq<Face>, faceTimes: seq<real>) returns (labels: seq<(Horizontal, Vertical)>)
      requires Valid() && |faceTimes| == |faces| && AllWellFormed(faces)
      modifies this`pointX, this`pointY, this`selected, this`selectedStartTime
      ensures Valid()
      ensures Snapshot() == Run(old(Snapshot()), faces, faceTimes)
      ensures |labels| == |faces|
      ensures forall i :: 0 <= i < |faces| ==> labels[i] == Directions(faces[i])
    {
      ghost var start := Snapshot();
      labels := [];
      var i := 0;
      while i < |faces|
        invariant 0 <= i <= |faces|
        invariant Valid()
        invariant Snapshot() == Run(start, faces[..i], faceTimes[..i])
        invariant |labels| == i
        invariant forall k :: 0 <= k < i ==> labels[k] == Directions(faces[k])
      {
        ghost var prefix, stamps := faces[..i + 1], faceTimes[..i + 1];
        assert prefix[..i] == faces[..i] && stamps[..i] == faceTimes[..i];
        assert prefix[i] == faces[i] && stamps[i] == faceTimes[i];
        var h, v := FaceStep(faces[i], faceTimes[i]);
        assert Snapshot() == Run(start, prefix, stamps);
        labels := labels + [(h, v)];
        i := i + 1;
      }
      assert faces[..i] == faces && faceTimes[..i] == faceTimes;
    }

    /**
     * One camera frame: every detected face in order, then the display and the frame rate.
     */
    method ProcessFrame(faces: seq<Face>, faceTimes: seq<real>, displayTime: real, frameTime: real)
      returns (labels: seq<(Horizontal, Vertical)>, display: Display, fps: Option<real>)
      requires Valid() && |faceTimes| == |faces| && AllWellFormed(faces)
      modifies this
      ensures Valid()
      ensures Snapshot() == Run(old(Snapshot()), faces, faceTimes)
      ensures old(selected) ==> selected
      ensures |labels| == |faces|
      ensures forall i :: 0 <= i < |faces| ==> labels[i] == Directions(faces[i])
      ensures display == DisplayFor(selected, selectedStartTime, displayTime)
      ensures fps == FrameRate(frameTime, old(prevFrameTime)) && prevFrameTime == frameTime
    {
      ghost var start := Snapshot();
      labels := ApplyFaces(faces, faceTimes);
      if start.selected {
        RunSelectedMonotone(start, faces, faceTimes);
      }
      display, fps := EndFrame(displayTime, frameTime);
    }

    /** A frame in which no face is detected: only the display and the frame time advance. */
    method NoFaceStep(displayTime: real, frameTime: real) returns (display: Display, fps: Option<real>)
      requires Valid()
      modifies this
      ensures Valid()
      ensures Snapshot() == old(Snapshot())
      ensures display == DisplayFor(selected, selectedStartTime, displayTime)
      ensures fps == FrameRate(frameTime, old(prevFrameTime)) && prevFrameTime == frameTime
    {
      var labels;
      labels, display, fps := ProcessFrame([], [], displayTime, frameTime);
    }
  }
}
