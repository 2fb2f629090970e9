/**
 The state the camera window (`PoseAppGUI` in gui.py) keeps between
 timer ticks, and the events that change it: the exercise and side radio
 buttons, starting and closing the capture, and one `update_frame` tick.
 Widgets are reduced to the text they show.
 */
module GuiSession {
  import opened Wrappers
  import opened Decimal
  import opened Landmarks
  import opened GuiFeedback
  import opened RepCounter
  import PoseUtils

  /** The text and foreground colour of the feedback label under the video. */
  datatype FeedbackLabel = FeedbackLabel(text: string, foreground: string)

  datatype Session = Session(
    exercise: int,
    side: string,
    running: bool,
    counter: Counter,
    counterLabel: string,
    feedback: FeedbackLabel)

  /** The counter label's text for a repetition count. */
  function CounterText(reps: nat): (t: string)
    ensures "Reps: " <= t
    ensures ParseInt(t[6..]) == Some(reps as int)
  {
    var t := "Reps: " + IntText(reps);
    assert t[6..] == IntText(reps);
    ParseIntText(reps);
    t
  }

  /** The counter label shows the current repetition count. */
  predicate LabelInSync(s: Session) {
    s.counterLabel == CounterText(s.counter.reps)
  }

  /** The window just after construction: left side, stopped, nothing counted. */
  function Init(exercise: int): (s: Session)
    ensures s.exercise == exercise && s.side == "izq" && !s.running
    ensures s.counter.reps == 0 && s.counter.stage == Out
    ensures LabelInSync(s)
    ensures s.feedback.text == ""
  {
    Session(exercise, "izq", false, Fresh, "Reps: 0", FeedbackLabel("", ""))
  }

  /** `reset_counters`: back to zero repetitions outside the range, from any state. */
  function ResetCounters(s: Session): (r: Session)
    ensures r.counter.reps == 0 && r.counter.stage == Out
    ensures LabelInSync(r)
    ensures r.exercise == s.exercise && r.side == s.side && r.running == s.running && r.feedback == s.feedback
  {
    s.(counter := Fresh, counterLabel := "Reps: 0")
  }

  /** Resetting twice is the same as resetting once. */
  lemma ResetIdempotent(s: Session)
    ensures ResetCounters(ResetCounters(s)) == ResetCounters(s)
  {
  }

  /** Choosing an exercise with the radio buttons resets the counter. */
  function SelectExercise(s: Session, exercise: int): (r: Session)
    ensures r.exercise == exercise && r.side == s.side && r.running == s.running && r.feedback == s.feedback
    ensures r.counter.reps == 0 && r.counter.stage == Out
    ensures LabelInSync(r)
  {
    ResetCounters(s.(exercise := exercise))
  }

  /** Choosing a side with the radio buttons resets the counter. */
  function SelectSide(s: Session, side: string): (r: Session)
    ensures r.side == side && r.exercise == s.exercise && r.running == s.running && r.feedback == s.feedback
    ensures r.counter.reps == 0 && r.counter.stage == Out
    ensures LabelInSync(r)
  {
    ResetCounters(s.(side := side))
  }

  /** How `iniciar_captura` gets on with the camera, decided outside the model. */
  datatype CameraOutcome = NoCameras | InvalidIndex | OpenFailed | Opened

  /**
   `iniciar_captura`: with no camera listed nothing happens; otherwise the
   running capture is stopped, and only a camera that opens restarts it,
   with the counter reset.
   */
  function StartCapture(s: Session, outcome: CameraOutcome): (r: Session)
    ensures r.running <==> outcome == Opened || (outcome == NoCameras && s.running)
    ensures outcome == Opened ==> r.counter.reps == 0 && r.counter.stage == Out
    ensures outcome != Opened ==> r.counter == s.counter && r.counterLabel == s.counterLabel
    ensures LabelInSync(s) ==> LabelInSync(r)
    ensures r.exercise == s.exercise && r.side == s.side && r.feedback == s.feedback
  {
    match outcome
    case NoCameras => s
    case InvalidIndex => s.(running := false)
    case OpenFailed => s.(running := false)
    case Opened => ResetCounters(s).(running := true)
  }

  /** `cerrar`: the capture stops; the counter is left as it is. */
  function Close(s: Session): (r: Session)
    ensures !r.running && r.counter == s.counter && r.counterLabel == s.counterLabel
    ensures r.exercise == s.exercise && r.side == s.side && r.feedback == s.feedback
  {
    s.(running := false)
  }

  /** What one camera read yields: nothing, or a frame with or without a detected pose. */
  datatype Frame = ReadFailed | Captured(pose: Option<Pose>)

  /** The angle `update_frame` measures: the elbow for exercise 1, the knee otherwise. */
  function FrameAngle(exercise: int, side: string, pose: Option<Pose>, bearing: Bearing): (r: Option<real>)
    ensures pose.None? ==> r.None?
    ensures r.Some? ==> 0.0 <= r.value <= 180.0
    ensures pose.Some? && exercise == 1 ==> r == PoseUtils.DetectElbow(pose.value, side, bearing)
    ensures pose.Some? && exercise != 1 ==> r == PoseUtils.DetectKnee(pose.value, side, bearing)
  {
    match pose
    case None => None
    case Some(p) =>
      if exercise == 1 then PoseUtils.DetectElbow(p, side, bearing)
      else PoseUtils.DetectKnee(p, side, bearing)
  }

  /**
   One tick of `update_frame`: measure the angle, step the counter with
   the range of the current exercise and side, refresh the counter label
   when a repetition is counted, and show the feedback message in its
   colour. A stopped window or a failed read changes nothing.
   */
  function UpdateFrame(s: Session, frame: Frame, bearing: Bearing): (r: Session)
    ensures !s.running || frame.ReadFailed? ==> r == s
    ensures r.exercise == s.exercise && r.side == s.side && r.running == s.running
    ensures s.running && frame.Captured? ==>
      r.counter == Step(s.counter, s.exercise, FrameAngle(s.exercise, s.side, frame.pose, bearing), RangeFor(s.exercise, s.side))
    ensures s.running && frame.Captured? ==>
      var f := Classify(FrameAngle(s.exercise, s.side, frame.pose, bearing), RangeFor(s.exercise, s.side));
      r.feedback == FeedbackLabel(MessageText(f.message), RgbToHex(f.colour))
    ensures r.counter.reps >= s.counter.reps
    ensures LabelInSync(s) ==> LabelInSync(r)
  {
    if !s.running then s
    else
      match frame
      case ReadFailed => s
      case Captured(pose) =>
        var angle := FrameAngle(s.exercise, s.side, pose, bearing);
        var range := RangeFor(s.exercise, s.side);
        var c := Step(s.counter, s.exercise, angle, range);
        var shown := if c.reps != s.counter.reps then CounterText(c.reps) else s.counterLabel;
        var f := Classify(angle, range);
        s.(counter := c, counterLabel := shown,
           feedback := FeedbackLabel(MessageText(f.message), RgbToHex(f.colour)))
  }

  /** The label colour is always one of the three feedback colours. */
  lemma FeedbackColourIsOneOfThree(s: Session, frame: Frame, bearing: Bearing)
    requires s.running && frame.Captured?
    ensures var fg := UpdateFrame(s, frame, bearing).feedback.foreground;
      fg == "#00ff00" || fg == "#ff0000" || fg == "#00c8c8"
  {
    FeedbackColoursRendered();
  }

  /**
   Outside the range table (an exercise other than 1 or 2, or a side other
   than "izq"/"der") the accepted range covers every folded angle, so a
   measured angle is always reported as correct.
   */
  lemma OffTableAlwaysCorrect(s: Session, frame: Frame, bearing: Bearing)
    requires s.running && frame.Captured?
    requires (s.exercise != 1 && s.exercise != 2) || (s.side != "izq" && s.side != "der")
    ensures var t := UpdateFrame(s, frame, bearing).feedback.text;
      t == MessageText(NotVisible) || t == MessageText(Correct)
  {
  }

  /** A sequence of ticks, in arrival order. */
  function RunFrames(s: Session, frames: seq<Frame>, bearing: Bearing): (r: Session)
    ensures r.exercise == s.exercise && r.side == s.side && r.running == s.running
    ensures LabelInSync(s) ==> LabelInSync(r)
    decreases |frames|
  {
    if frames == [] then s
    else UpdateFrame(RunFrames(s, frames[..|frames| - 1], bearing), frames[|frames| - 1], bearing)
  }

  /** The angle samples a sequence of ticks feeds the counter: one per frame that was read. */
  function Samples(exercise: int, side: string, frames: seq<Frame>, bearing: Bearing): seq<Option<real>>
    decreases |frames|
  {
    if frames == [] then []
    else
      var rest := Samples(exercise, side, frames[..|frames| - 1], bearing);
      match frames[|frames| - 1]
      case ReadFailed => rest
      case Captured(pose) => rest + [FrameAngle(exercise, side, pose, bearing)]
  }

  /** A stopped window ignores every frame. */
  lemma {:induction false} StoppedIgnoresFrames(s: Session, frames: seq<Frame>, bearing: Bearing)
    requires !s.running
    ensures RunFrames(s, frames, bearing) == s
    decreases |frames|
  {
    if frames != [] {
      StoppedIgnoresFrames(s, frames[..|frames| - 1], bearing);
    }
  }

  /** While running, the window's counter is the counter run over the measured samples. */
  lemma {:induction false} FramesDriveCounter(s: Session, frames: seq<Frame>, bearing: Bearing)
    requires s.running
    ensures RunFrames(s, frames, bearing).counter
         == Run(s.counter, s.exercise, RangeFor(s.exercise, s.side), Samples(s.exercise, s.side, frames, bearing))
    decreases |frames|
  {
    if frames != [] {
      FramesDriveCounter(s, frames[..|frames| - 1], bearing);
    }
  }

  /**
   After a successful start, the repetitions shown are exactly the
   in-to-out crossings of the target range by the measured angles, for
   the arm exercise; for any other exercise nothing is counted.
   */
  lemma CaptureCountsCrossings(s: Session, frames: seq<Frame>, bearing: Bearing)
    ensures var s0 := StartCapture(s, Opened);
      var r := RunFrames(s0, frames, bearing);
      var samples := Samples(s.exercise, s.side, frames, bearing);
      && LabelInSync(r)
      && (s.exercise == 1 ==> r.counter.reps == Crossings([false] + Usable(RangeFor(1, s.side), samples)))
      && (s.exercise != 1 ==> r.counter.reps == 0)
  {
    var s0 := StartCapture(s, Opened);
    var range := RangeFor(s.exercise, s.side);
    var samples := Samples(s.exercise, s.side, frames, bearing);
    FramesDriveCounter(s0, frames, bearing);
    if s.exercise == 1 {
      FreshCountsCrossings(range, samples);
    } else {
      RunInertOffExercise(s0.counter, s.exercise, range, samples);
    }
  }
}
