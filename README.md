# Gaze-to-control controller

A model of the frame loop of `sorebed_proto.py`, a hands-free directional input
prototype. Per camera frame, for every face the face-mesh detector finds, the
controller:

1. detects a blink (either eyelid distance below 0.01, normalised units);
2. if there is a blink and the cursor is over one of four fixed buttons
   (turn left, turn right, leg up, leg down), marks the selection and records
   the time;
3. reads a gaze offset per eye from two landmarks per eye and decides one
   horizontal label (Look Left / Look Right) and one vertical label
   (Look Up / Look Down);
4. moves the integer cursor 5 pixels on each axis, snaps it onto the cross
   through the screen centre (320, 240), and clamps it to the 640 x 480 screen.

After the faces it chooses the selection display: nothing, a "SELECTED" banner
for the first two seconds, then a small "MODE: SELECTED" corner indicator. It
then computes the frame rate from two clock readings.

Modules (one file each):

- `Options`: `Option`, for Python's `None` and for a division that raises.
- `Landmarks`: landmark points, the descending eye lists, gaze offsets, the blink test.
- `Gaze`: the direction decision.
- `Pointer`: move, cross lock and clamp of the cursor.
- `Buttons`: the four button rectangles and the hit test.
- `Selection`: the display choice and the frame rate.
- `Controller`: the controller state as a value (`State`, `FaceUpdate`,
  `Run` over the faces of one frame) with its invariants, and the class
  `GazeController` whose fields are the Python program's module-level variables
  (`point_x`, `point_y`, `selected`, `selected_start_time`, `prev_frame_time`).
  Its methods update those fields in place and are proved against `FaceUpdate`
  and `Run`.

The code does not always do what its names and comments suggest; the model follows the code:

- The eye "centre" (`left_eye_center`, `right_eye_center`) is element 0 of each
  eye list (landmark 159 or 386, an upper-lid point), not a mean of the eye's landmarks. The pupil proxy is element 4 (landmark 155 or 382).
- There is no "centre" gaze outcome. Every face yields a horizontal and a
  vertical label, and the cursor moves on both axes before the lock.
- The hit test reads the cursor as it was before this face's move.
- At exactly 2 seconds after the selection the corner indicator already shows
  (`elapsed < 2` selects the banner).
- The first frame rate divides by the first clock reading minus 0, not by zero.
  Only two equal clock readings divide by zero.
- Selection never returns to the idle state, and a new blink over a button
  restarts the two-second banner.

## Model

| member | source | states |
|---|---|---|
| Landmarks.DescendingRange | sorebed_proto.py:85-86 | the list built over `range(start, stop, -1)`: `start - stop` landmarks (none if `start <= stop`), element k being landmark `start - k` |
| Landmarks.GazeOffsets | sorebed_proto.py:85-95 | left offset is landmark 155 minus landmark 159, right offset is landmark 386 minus landmark 382, on both axes |
| Landmarks.EyeListsShape | sorebed_proto.py:85-89 | the descending ranges give lists of 15 and 12 landmarks; element 0 is landmark 159/386, element 4 is landmark 155/382 |
| Landmarks.SignalsReadOnlyPrefix | sorebed_proto.py:57-95 | offsets and blink depend only on landmarks 0..386: two faces that agree there give the same signals |
| Landmarks.EyelidClosed | sorebed_proto.py:65-69 | one eye's lid test: coinciding lids count as closed, and closed lids are less than 0.01 apart on each axis |
| Landmarks.SmallDistanceSmallGaps | sorebed_proto.py:65-69 | a lid distance below 0.01 bounds both coordinate gaps by 0.01 |
| Landmarks.Blink | sorebed_proto.py:57-69 | a face with coinciding lids on either eye blinks; a blink implies one eye's lids (159/145 or 386/374) are within 0.01 on each axis |
| Landmarks.ClosedIffHypotBelowThreshold | sorebed_proto.py:65-69 | the squared-distance test agrees with `hypot(dx, dy) < 0.01` for the Euclidean lid distance |
| Gaze.HorizontalDirection | sorebed_proto.py:98-101 | the label is the vote of an eye whose abs offset is the largest (left eye says Left for a positive offset, right eye for a negative one) |
| Gaze.VerticalDirection | sorebed_proto.py:103-106 | the label is the vote of an eye whose abs offset is the largest (left eye says Up for a positive offset, right eye for a negative one) |
| Gaze.Directions | sorebed_proto.py:85-106 | the two labels of a face, as decided on landmark 155 minus 159 and 386 minus 382 |
| Gaze.DominantEyeDecides | sorebed_proto.py:98-101 | the horizontal label is the vote of the eye with strictly larger abs offset, otherwise the right eye's vote |
| Gaze.TieGoesToRightEye | sorebed_proto.py:98-101 | on equal magnitudes the right eye decides, whatever the left offset's sign |
| Gaze.DominatedEyeIgnored | sorebed_proto.py:98-106 | changing the losing eye's offset within the winner's magnitude does not change the label |
| Gaze.VerticalMirrorsHorizontal | sorebed_proto.py:98-106 | the vertical rule is the horizontal rule on y offsets, Up in the place of Left |
| Gaze.SameOffsetOppositeVotes | sorebed_proto.py:98-101 | the two eyes read the sign in opposite ways: the same positive offsets give Left or Right depending on which eye is larger |
| Gaze.CentredGazeReadsRightDown | sorebed_proto.py:98-106 | zero offsets still give Look Right and Look Down; there is no neutral label |
| Pointer.Move | sorebed_proto.py:109-117 | each face moves x by exactly 5 and y by exactly 5; Left and Up decrease the coordinate |
| Pointer.Lock | sorebed_proto.py:119-123 | the result is on the cross, keeps one coordinate, and moves the point by the smaller of its two deviations from the centre lines |
| Pointer.LockIsNearest | sorebed_proto.py:120-123 | the lock moves to a nearest point of the cross (taxicab distance) |
| Pointer.TieSnapsX | sorebed_proto.py:120-123 | equal deviations reset x to 320 (strict comparison) |
| Pointer.Clamp | sorebed_proto.py:126-127 | `max(lo, min(v, hi))`: the result is in [lo, hi], equal to v inside, lo below and hi above |
| Pointer.ClampToScreen | sorebed_proto.py:126-127 | per axis: below 0 goes to 0, above 640/480 goes to 640/480, in range is kept; the result is the on-screen point nearest to the input |
| Pointer.ClampKeepsCross | sorebed_proto.py:119-127 | clamping a point of the cross leaves it on the cross |
| Pointer.MoveLockClamp | sorebed_proto.py:108-127 | after every face update the cursor is on the cross and on screen |
| Pointer.LockClampIdempotent | sorebed_proto.py:120-127 | lock then clamp returns a point already on the cross and on screen unchanged |
| Pointer.FirstStepFromCentre | sorebed_proto.py:109-127 | the first step from (320, 240) ends at (320, 235) or (320, 245) |
| Pointer.VerticalArmSticky | sorebed_proto.py:109-127 | on the vertical line at least 10 pixels from the centre the cursor only moves along the line |
| Pointer.HorizontalArmSticky | sorebed_proto.py:109-127 | on the horizontal line at least 15 pixels from the centre the cursor only moves along the line |
| Pointer.HorizontalArmTieAtTwoSteps | sorebed_proto.py:120-123 | from (330, 240) looking left, the tie sends the cursor to the vertical line |
| Buttons.Anchor | sorebed_proto.py:25-28 | the anchors are (0, 240), (520, 240), (265, 35), (270, 465), and every button lies wholly on the screen |
| Buttons.Covers | sorebed_proto.py:71-74 | one button's inclusive hit test; only on-screen points are covered |
| Buttons.HitRegionIsDrawnRegion | sorebed_proto.py:71-74 | each button's hit rectangle is the rectangle `draw_button` paints (line 41) |
| Buttons.HitAny | sorebed_proto.py:71-74 | the hit region is the union of [0,120]x[205,250], [520,640]x[205,250], [265,385]x[0,45] and [270,390]x[430,475], inclusive |
| Buttons.HitOnCross | sorebed_proto.py:71-74 | for a cursor on the cross and on screen, a hit is x <= 120 or x >= 520 on the horizontal line, or y <= 45 or 430 <= y <= 475 on the vertical line |
| Buttons.CentreHitsNothing | sorebed_proto.py:19-29 | the start position (320, 240) is over no button |
| Selection.DisplayFor | sorebed_proto.py:137-144 | no indicator exactly when not selected; the banner exactly when selected and less than 2 s have elapsed; the corner indicator otherwise |
| Selection.CornerAtExactlyTwoSeconds | sorebed_proto.py:139-144 | at exactly 2 s the corner indicator shows; between the start and 2 s the banner shows |
| Selection.CornerPersists | sorebed_proto.py:137-144 | once the corner indicator shows, it shows at every later time for the same start |
| Selection.FrameRate | sorebed_proto.py:146-149 | the rate exists exactly when the two readings differ and is the reciprocal of their difference |
| Controller.InitialConsistent | sorebed_proto.py:19-33 | the initial state is on the cross, on screen, unselected with no start time, and shows no indicator |
| Controller.Select | sorebed_proto.py:70-76 | the cursor is kept; selected afterwards iff selected before or a blink over a button; a blink over a button sets the start time to `now`, even when already selected; otherwise the start time is unchanged |
| Controller.FaceUpdate | sorebed_proto.py:56-127 | one face: the cursor ends on the cross and on screen; selected iff selected before or a blink with the pre-move cursor over a button; the start time is the old one or this face's reading |
| Controller.Run | sorebed_proto.py:54-55 | the faces of a frame in order: no face leaves the state unchanged, any face leaves the cursor on the cross and on screen |
| Controller.FaceUpdateKeepsConsistent | sorebed_proto.py:69-127 | a face update keeps the cursor on the cross and on screen and keeps `selected` iff a start time is recorded |
| Controller.BlinkOverButtonSelects | sorebed_proto.py:69-76 | a blink over a button sets `selected` and the start time to the face's clock reading, even when already selected |
| Controller.OtherFacesKeepSelection | sorebed_proto.py:69-76 | without a blink over a button, `selected` and the start time are unchanged |
| Controller.SelectionUsesPreMoveCursor | sorebed_proto.py:70-127 | a blink at (120, 240) while looking right selects, although the cursor then moves to (125, 240), off every button |
| Controller.RunKeepsConsistent | sorebed_proto.py:54-127 | applying the faces of a frame in order keeps the state invariant |
| Controller.RunSelectedMonotone | sorebed_proto.py:54-76 | `selected` never returns to false |
| Controller.RunStartIsAReading | sorebed_proto.py:54-76 | after a frame the start time is the old one or the clock reading of one of the frame's faces |
| Controller.NoFaceRunUnchanged | sorebed_proto.py:54-55 | a frame with no faces leaves the state unchanged |
| Controller.GazeController.constructor | sorebed_proto.py:15-37 | cursor at (320, 240), not selected, no start time, previous frame time 0 |
| Controller.GazeController.FaceStep | sorebed_proto.py:56-134 | updates the fields as `FaceUpdate` does, keeps the invariant, returns the two labels |
| Controller.GazeController.ApplyFaces | sorebed_proto.py:54-134 | applies the faces in order with a loop over `FaceStep`: the state becomes `Run` of the old state, the invariant holds, one label pair per face |
| Controller.GazeController.EndFrame | sorebed_proto.py:136-149 | returns the display choice and the frame rate, and stores the frame time |
| Controller.GazeController.ProcessFrame | sorebed_proto.py:44-152 | applies every face in order (the state is `Run` of the old state), keeps the invariant and `selected`, returns a label pair per face, the display and the frame rate |
| Controller.GazeController.NoFaceStep | sorebed_proto.py:54-149 | a frame without faces changes neither cursor nor selection; only the frame time advances |

## Left out

- Camera capture, window creation, the `success` check and `continue`, the 'q' key, and all drawing (`draw_button`, `putText`, `circle`, `imshow`, `waitKey`): I/O and rendering. The frame loop itself is a sequence of `ProcessFrame` calls.
- The face-mesh detector (`FaceMesh.process`): its result is the input, a sequence of faces. Each face must hold at least 387 landmarks, which the detector's 468-landmark output always does.
- `time.time()`: each face's clock reading, the display's reading and the frame's reading are parameters.
- Floating point: landmarks, offsets, times and the rate are reals. `hypot` is not computed; the lid distance is compared squared, which agrees with the hypot comparison over reals.
- `int(fps)` for the on-screen text: display only.
- Python's `ZeroDivisionError` on equal clock readings ends the program; the model returns `None` there instead.
- `sorebed_proto3.py`, `sorebed_proto4.py` and `sorebed_camv1.py`: user-interface and camera code. Their only logic is an unclamped float copy of the cross snap, a landmark mean, and an iris midpoint assigned to the cursor without lock or clamp.
