# FeedbackBI — joint angles and repetition counting, in Dafny

FeedbackBI is a desktop program that watches a person through a camera.
A pose estimator (MediaPipe) finds the body landmarks. The program then
measures the elbow or knee angle, says whether that angle is inside the
target range for the chosen exercise and side, and counts repetitions.

This project models the logic of the three Python files that do this,
leaving out the camera, the estimator and the Tk widgets:

- `pose_utils.py` (module `PoseUtils`): the interior-angle variant of
  `calcular_angulo`. The raw turn is folded into [0, 180]. A landmark is
  visible only when its visibility is above 0.3. `detectar_codo` and
  `detectar_rodilla` pick the side's three landmarks and return `None`
  unless all three are visible.
- `esqueleto.py` (module `Skeleton`): the unbounded variant of
  `calcular_angulo`, which stays in [0, 360). The visibility threshold is
  0.5, and the fixed straight-limb feedback accepts 160..180 degrees. Each
  arm or leg gets an overlay only when its three joints are visible; left
  and right are judged independently.
- `gui.py`, split into three modules:
  - `GuiFeedback`: the range table `obtener_rango_ejercicio`, the
    classifier `feedback_ejercicio` and `rgb_to_hex`.
  - `RepCounter`: the stage/reps counter stepped inside `update_frame`.
  - `GuiSession`: the window state between timer ticks, meaning
    `reset_counters`, the radio buttons that call it, `iniciar_captura`,
    `cerrar` and one `update_frame` tick.
- Support modules:
  - `Landmarks`: the 33-landmark pose, MediaPipe's landmark indices and
    the raw turn.
  - `Colours`: BGR colour tuples.
  - `Decimal`: Python's `str(int)`, which the f-strings use.
  - `Wrappers`: `Option`.
  - `Variants`: how the two program variants relate.

Angles are Dafny `real`s. The one transcendental step,
`degrees(arctan2(dy, dx))`, is a parameter of type `Landmarks.Bearing`. The
model knows only its range: over the reals it lies in (-180, 180]. So the
raw turn between two rays lies strictly between -360 and 360, and both
normalisations are verified on that interval.

The counter's meaning is stated against an independent reference. Take the
in-range verdicts of the samples that carry an angle, and put the starting
stage in front of them as one more verdict. `RepCounter.Crossings` counts
the places where `true` is followed by `false`.
`RepCounter.RunCountsCrossings` proves that, for exercise 1, the counter
adds exactly that many repetitions, and that its final stage is the last verdict.
`GuiSession.CaptureCountsCrossings` lifts this to the window: after a
successful start on exercise 1, the label shows the number of in-to-out
crossings of the measured angles; on any other exercise it stays at
"Reps: 0".

Observations made while modelling:

- The counter only counts for exercise 1 (arms), although the range table
  has knee ranges too (gui.py:274). For exercise 2 the window shows
  feedback but the count stays 0.
- Neither file has set counting, sets remaining or session completion.
  Only the repetition count exists, and the model follows the code.
- The not-visible colour `(200, 200, 0)` is commented as a soft yellow
  (gui.py:29). The tuple is in BGR order, however, and `rgb_to_hex` reads
  it back to front. The label is therefore drawn in `#00c8c8`, a teal
  (`GuiFeedback.FeedbackColoursRendered`). This is about appearance only,
  so it is recorded here rather than as a finding.
- Both variants use the same raw turn, but they judge a mirrored limb
  differently. In esqueleto.py a 170-degree limb seen from the other
  orientation reads 190 and is told to straighten
  (`Variants.MirroredLimbJudgedDifferently`).

## Model

| member | source | states |
|---|---|---|
| Landmarks.RawTurn | pose_utils.py:13-16 | the difference of the two ray bearings lies strictly between -360 and 360 degrees |
| Landmarks.RawTurnReversed | esqueleto.py:14 | measuring the turn from the distal end instead of the proximal end negates it |
| PoseUtils.VisibilityIsStrict | pose_utils.py:23-28 | a landmark is visible iff its visibility is strictly above 0.3; exactly 0.3 is not visible |
| PoseUtils.FoldAngle | pose_utils.py:17-21 | the folded angle lies in [0, 180], leaves a raw turn in [0, 180] unchanged, and equals the turn or its opposite up to a full turn |
| PoseUtils.FoldAngleSymmetric | pose_utils.py:17-21 | folding a turn and folding the reversed turn give the same angle |
| PoseUtils.InteriorAngle | pose_utils.py:8-21 | the interior angle at the vertex lies in [0, 180], as the doc-comment promises; it is the raw turn itself when that is in [0, 180], and otherwise the turn negated, plus 360, or its explement |
| PoseUtils.InteriorAngleSymmetric | pose_utils.py:8-21 | swapping the two end points gives the same interior angle |
| PoseUtils.DetectLimb | pose_utils.py:45-55 | an angle is returned iff all three landmarks are visible, and it is the interior angle of their positions |
| PoseUtils.ArticulationVisible | pose_utils.py:23-28 | a visible landmark has visibility above 0.3, and one at or below 0.3 is not visible |
| PoseUtils.DetectElbow | pose_utils.py:30-55 | an elbow angle exists iff the shoulder, elbow and wrist of the selected side ("izq" is left, anything else right) all have visibility above 0.3; it is then the interior angle at that side's elbow between its shoulder and wrist, in [0, 180] |
| PoseUtils.DetectKnee | pose_utils.py:57-82 | a knee angle exists iff the hip, knee and ankle of the selected side all have visibility above 0.3; it is then the interior angle at that side's knee between its hip and ankle, in [0, 180] |
| PoseUtils.DetectElbowSideSelection | pose_utils.py:36-43 | every side other than "izq" behaves as "der", and only the chosen arm's landmarks affect the result |
| PoseUtils.DetectKneeSideSelection | pose_utils.py:63-70 | every side other than "izq" behaves as "der", and only the chosen leg's landmarks affect the result |
| Skeleton.ArticulationVisible | esqueleto.py:25-26 | a visible landmark has visibility above 0.5, and one at or below 0.5 is not visible |
| Skeleton.VisibilityIsStrict | esqueleto.py:25-26 | a landmark is visible iff its visibility is strictly above 0.5; exactly 0.5 is not visible |
| Skeleton.WrapAngle | esqueleto.py:15-17 | the unbounded angle lies in [0, 360) and is the raw turn itself or the raw turn plus one full turn |
| Skeleton.TurnAngle | esqueleto.py:13-17 | the angle of esqueleto.py always lies in [0, 360) |
| Skeleton.LimbAngle | esqueleto.py:46 | a limb's angle lies in [0, 360) and is the raw turn of its three landmark positions, or that turn plus 360 |
| Skeleton.StraightFeedback | esqueleto.py:19-23 | green with "Ejercicio correcto" iff 160 <= angle <= 180, otherwise red with the correction message |
| Skeleton.LimbOverlay | esqueleto.py:45-53 | a limb gets an overlay iff its three joints are visible, and the overlay carries the prefixed feedback text and colour at x = 50 |
| Skeleton.UpperBody | esqueleto.py:28-53 | each arm's overlay exists iff that arm is visible, and it is that arm's own overlay: the left arm's feedback with "B. IZQ. = " at row 50, the right arm's with "B. DER. = " at row 100 |
| Skeleton.LowerBody | esqueleto.py:55-80 | each leg's overlay exists iff that leg is visible, and it is that leg's own overlay: the left leg's feedback with "P. IZQ. = " at row 50, the right leg's with "P. DER. = " at row 100 |
| Skeleton.FrameOverlays | esqueleto.py:111-115 | overlays are produced iff a pose was detected and the exercise is 1 or 2; exercise 1 draws the arms and exercise 2 the legs |
| Skeleton.SidesIndependent | esqueleto.py:37-53 | the left limb's overlay depends only on the left landmarks and the right limb's only on the right ones |
| Variants.FoldIsSmallerSide | pose_utils.py:17-21 | the folded angle is the smaller of the unbounded angle of esqueleto.py and its explement |
| Variants.PoliciesAgreeIffNotReflex | esqueleto.py:13-17 | the two variants give the same angle iff the unbounded angle is at most 180 |
| Variants.WrapReversedIsExplement | esqueleto.py:13-17 | reversing a non-zero turn changes the unbounded angle into 360 minus it, so that variant is not symmetric |
| Variants.MirroredLimbJudgedDifferently | esqueleto.py:19-23 | a 170-degree limb is green one way round and red the other in esqueleto.py, while the folded angle is 170 both ways |
| Variants.StraightFeedbackIsClassify | esqueleto.py:19-23 | the straight-limb feedback has the colour of the GUI classifier on [160, 180] and says "correct" exactly when it does |
| Decimal.ParseIntText | gui.py:283 | the decimal text of an integer reads back as that integer |
| Decimal.IntTextInjective | gui.py:34 | different integers have different decimal texts |
| GuiFeedback.RangeFor | gui.py:36-64 | every range has min <= max; exercises 1 and 2 stay within [0, 180], with [0, 180] for an unknown side; any other exercise gets [0, 360] |
| GuiFeedback.Classify | gui.py:23-34 | no angle gives "not visible" in (200,200,0) whatever the range; an angle with min <= a <= max gives "correct" in green; any other angle gives the out-of-range message quoting [min, max] in red |
| GuiFeedback.NotVisibleIgnoresRange | gui.py:28-29 | a missing angle gets the same feedback for every range |
| GuiFeedback.MessageText | gui.py:28-34 | the not-visible and correct labels are the literal texts of gui.py:29 and :32; the out-of-range label starts "Ángulo fuera de rango [", then has min in decimal, a comma, a space, max in decimal, and ends in "]" |
| GuiFeedback.MessageTextInjective | gui.py:29-34 | the three label texts, and out-of-range texts for different ranges, are all distinct |
| GuiFeedback.OutOfRangeTextInjective | gui.py:34 | the out-of-range text determines both numbers of the range it quotes |
| GuiFeedback.Hex2 | gui.py:307 | `{:02x}` of a channel is two lower-case hex digits whose value, high digit times 16 plus low digit, is the channel |
| GuiFeedback.RgbToHex | gui.py:303-307 | the result is "#" followed by six lower-case hex digits |
| GuiFeedback.ParseRgbToHex | gui.py:303-307 | the colour is recovered from its hex text, with red, green and blue read from positions 1-2, 3-4 and 5-6 |
| GuiFeedback.RgbToHexOfParse | gui.py:303-307 | every well-formed lower-case "#rrggbb" string is the rendering of the colour it parses to |
| GuiFeedback.FeedbackColoursRendered | gui.py:303-307 | green renders "#00ff00", red renders "#ff0000" and the not-visible colour renders "#00c8c8" |
| RepCounter.Step | gui.py:274-283 | nothing changes without an angle or off exercise 1; otherwise the stage becomes In iff the angle is in range; reps grow by one exactly on an In-to-Out change and otherwise stay |
| RepCounter.EntryEdge | gui.py:277-278 | from Out, an in-range angle moves to In without counting |
| RepCounter.ExitEdge | gui.py:280-282 | from In, an out-of-range angle counts exactly one repetition and moves to Out |
| RepCounter.SameSideIsIgnored | gui.py:274-282 | a sample on the side the counter is already on changes neither stage nor reps |
| RepCounter.Run | gui.py:274-283 | over any trace the repetition count never ends below where it started |
| RepCounter.RunCountsCrossings | gui.py:222-283 | for exercise 1, the repetitions added over a trace equal the in-to-out crossings of the usable verdicts, and the final stage is the last verdict |
| RepCounter.FreshCountsCrossings | gui.py:174-283 | for exercise 1, from the reset state the count is the number of crossings starting from "out" |
| RepCounter.RunInertOffExercise | gui.py:274 | for any exercise other than 1 the counter never changes |
| RepCounter.RepsNeverDecrease | gui.py:281 | the count after a prefix of a trace is at most the count after the whole trace |
| RepCounter.NoExitNoCount | gui.py:226 | a trace whose every angle is in range counts no repetition |
| RepCounter.Debounced | gui.py:276-282 | for exercise 1, k usable samples (and so any trace of k samples) add at most (k + 1) / 2 repetitions, because each repetition needs one sample to enter and one to leave |
| RepCounter.FeedbackAgreesWithStage | gui.py:274-288 | for exercise 1, after a measured sample the stage is In iff the feedback shown is "correct" (for other exercises the stage does not move) |
| RepCounter.TwoExitsCountTwo | gui.py:274-283 | with range [160, 180] the angles 170, 175, 150, 170, 140 count two repetitions and end Out |
| GuiSession.CounterText | gui.py:283 | the counter label starts "Reps: " and the rest reads back as the repetition count |
| GuiSession.Init | gui.py:71-146 | a new window is stopped, on the left side, with zero repetitions, stage "out", a label in step and an empty feedback label |
| GuiSession.ResetCounters | gui.py:174-180 | from any state, reps become 0, stage becomes "out" and the label reads the count; nothing else changes |
| GuiSession.ResetIdempotent | gui.py:174-180 | resetting twice is the same as resetting once |
| GuiSession.SelectExercise | gui.py:103-112 | choosing an exercise sets it and resets the counter; side, running state and feedback label are kept |
| GuiSession.SelectSide | gui.py:116-126 | choosing a side sets it and resets the counter; exercise, running state and feedback label are kept |
| GuiSession.StartCapture | gui.py:327-364 | the window runs afterwards iff the camera opened (or nothing was listed and it was already running), and only an opened camera resets the counter; exercise, side and feedback label are kept |
| GuiSession.Close | gui.py:309-316 | closing stops the capture and keeps the count, exercise, side and feedback label |
| GuiSession.FrameAngle | gui.py:240-260 | no detected pose gives no angle; exercise 1 measures the elbow and every other exercise the knee, always within [0, 180] |
| GuiSession.UpdateFrame | gui.py:229-301 | a stopped window or failed read changes nothing; otherwise the counter steps with the angle and the exercise's range, the feedback label shows the classifier's text and colour, and the counter label stays in step with reps |
| GuiSession.FeedbackColourIsOneOfThree | gui.py:294-298 | after every tick that processes a frame, the feedback label's colour is "#00ff00", "#ff0000" or "#00c8c8" |
| GuiSession.OffTableAlwaysCorrect | gui.py:262-288 | outside the range table, a measured angle is always reported as correct |
| GuiSession.RunFrames | gui.py:300-301 | a sequence of ticks never changes exercise, side or running state, and keeps the counter label in step |
| GuiSession.StoppedIgnoresFrames | gui.py:229-230 | a stopped window ignores every frame |
| GuiSession.FramesDriveCounter | gui.py:229-283 | while running, the window's counter is the rep counter run over the angles measured from the frames that were read |
| GuiSession.CaptureCountsCrossings | gui.py:359-364 | after a successful start, the count shown is the number of in-to-out crossings for exercise 1 and 0 for every other exercise |

## Left out

- `degrees(arctan2(...))` is transcendental. It is the `Bearing` parameter,
  and only its range over the reals, (-180, 180], is used. Floating-point
  rounding and NumPy's signed-zero result of -180 are not modelled. On a
  raw turn of +360, or on a negative raw turn small enough that d + 360
  rounds to 360.0, esqueleto.py returns 360.0, which is outside the
  [0, 360) of `Skeleton.TurnAngle`. A raw turn of -360 gives 0.0.
  pose_utils.py folds all of these to 0.
- Angles and visibility scores are reals, not floats.
- Camera enumeration and capture are foreign library calls:
  `listar_camaras`, `actualizar_camaras`, `cv2.VideoCapture` and frame
  reads. Their results are inputs, namely `GuiSession.CameraOutcome` and
  `GuiSession.Frame`.
- Pose estimation (`pose.process`), landmark drawing (`draw_landmarks`)
  and `cv2.putText` are foreign library calls. A detected pose is an input.
  The text, origin and colour passed to `putText` are kept as
  `Skeleton.Overlay`.
- MediaPipe always returns 33 landmarks; the `Pose` type assumes this
  rather than modelling an index error.
- `mostrar_frame_actual`, `on_resize` and the canvas image are display
  scaling, and `mostrar_acerca` and the message boxes are UI text. Widget
  layout, fonts and menus are layout only.
- The debug `print` in `update_frame` is console output only.
- Timer scheduling (`root.after`, `after_cancel`) is event-loop plumbing.
  It is replaced by feeding a sequence of frames (`GuiSession.RunFrames`).
  The first tick that `iniciar_captura` runs directly is the first element
  of that sequence.
- The guard `self.cap is None` in `update_frame` is folded into `running`.
  `running` is only true after a camera opened, which sets `cap`.
- The esqueleto.py `App` window and its camera loop are UI and I/O. Of
  that loop, only the body-part dispatch is modelled
  (`Skeleton.FrameOverlays`).
- The MediaPipe singletons, the unused `threading` import and main.py are
  wiring only.
- GuiSession.Init: the feedback label's initial foreground is Tk's default
  colour, which the model writes as the empty string.
- GuiFeedback.RgbToHex: only channels 0..255 are modelled. Every colour the
  program passes is a literal in that range. `{:02x}` on larger or
  negative numbers is not modelled.
- Set counting, sets remaining and session completion: the program has no
  such logic, so none is modelled.
