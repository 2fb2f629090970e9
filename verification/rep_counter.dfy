/**
 The repetition counter of the camera GUI (gui.py): a two-state debounce
 machine. A repetition is one entry into the target range followed by
 one exit from it; samples with no angle, and every sample while the
 exercise is not 1 (arms), leave the counter as it is.
 */
module RepCounter {
  import opened Wrappers
  import opened GuiFeedback

  /** Whether the last usable angle was inside the target range. */
  datatype Stage = Out | In

  datatype Counter = Counter(stage: Stage, reps: nat)

  /** The state after construction and after `reset_counters`. */
  const Fresh := Counter(Out, 0)

  /** The counting block of `update_frame` for one angle sample. */
  function Step(c: Counter, exercise: int, sample: Option<real>, range: Range): (r: Counter)
    ensures exercise != 1 || sample.None? ==> r == c
    ensures exercise == 1 && sample.Some? ==> (r.stage == In <==> InRange(sample.value, range))
    ensures r.reps == c.reps || r.reps == c.reps + 1
    ensures r.reps == c.reps + 1 <==> c.stage == In && r.stage == Out
  {
    match sample
    case None => c
    case Some(a) =>
      if exercise != 1 then c
      else if c.stage == Out && InRange(a, range) then Counter(In, c.reps)
      else if c.stage == In && !InRange(a, range) then Counter(Out, c.reps + 1)
      else assert c.stage == In <==> InRange(a, range); c
  }

  /** Entry edge: leaving Out for In counts nothing. */
  lemma EntryEdge(c: Counter, a: real, range: Range)
    requires c.stage == Out && InRange(a, range)
    ensures Step(c, 1, Some(a), range) == Counter(In, c.reps)
  {
  }

  /** Exit edge: leaving In for Out counts exactly one repetition. */
  lemma ExitEdge(c: Counter, a: real, range: Range)
    requires c.stage == In && !InRange(a, range)
    ensures Step(c, 1, Some(a), range) == Counter(Out, c.reps + 1)
  {
  }

  /** A sample on the side the counter is already on changes nothing. */
  lemma SameSideIsIgnored(c: Counter, exercise: int, a: real, range: Range)
    requires (c.stage == In) == InRange(a, range)
    ensures Step(c, exercise, Some(a), range) == c
  {
  }

  /** The counter after a whole trace of samples, processed in arrival order. */
  function Run(c: Counter, exercise: int, range: Range, trace: seq<Option<real>>): (r: Counter)
    ensures r.reps >= c.reps
    decreases |trace|
  {
    if trace == [] then c
    else Step(Run(c, exercise, range, trace[..|trace| - 1]), exercise, trace[|trace| - 1], range)
  }

  /** The in-range verdicts of the samples that carry an angle, in order. */
  function Usable(range: Range, trace: seq<Option<real>>): (b: seq<bool>)
    ensures |b| <= |trace|
    decreases |trace|
  {
    if trace == [] then []
    else
      var rest := Usable(range, trace[..|trace| - 1]);
      match trace[|trace| - 1]
      case None => rest
      case Some(a) => rest + [InRange(a, range)]
  }

  /** The number of places where a `true` is immediately followed by a `false`. */
  function Crossings(b: seq<bool>): nat
    decreases |b|
  {
    if |b| < 2 then 0
    else Crossings(b[..|b| - 1]) + (if b[|b| - 2] && !b[|b| - 1] then 1 else 0)
  }

  /**
   The counter's meaning: starting from `c`, the repetitions added are the
   in-to-out crossings of the usable verdicts (with the starting stage as
   the verdict before the first sample), and the final stage is the last
   verdict.
   */
  lemma {:induction false} RunCountsCrossings(c: Counter, range: Range, trace: seq<Option<real>>)
    ensures var b := [c.stage == In] + Usable(range, trace);
      && Run(c, 1, range, trace).reps == c.reps + Crossings(b)
      && (Run(c, 1, range, trace).stage == In <==> b[|b| - 1])
    decreases |trace|
  {
    if trace != [] {
      var prefix := trace[..|trace| - 1];
      RunCountsCrossings(c, range, prefix);
      var b' := [c.stage == In] + Usable(range, prefix);
      match trace[|trace| - 1]
      case None =>
      case Some(a) =>
        var b := b' + [InRange(a, range)];
        assert [c.stage == In] + Usable(range, trace) == b;
        assert b[..|b| - 1] == b';
    }
  }

  /** A fresh counter counts the crossings of the usable verdicts, starting from Out. */
  lemma FreshCountsCrossings(range: Range, trace: seq<Option<real>>)
    ensures Run(Fresh, 1, range, trace).reps == Crossings([false] + Usable(range, trace))
  {
    RunCountsCrossings(Fresh, range, trace);
  }

  /** While the exercise is not 1 the counter never moves. */
  lemma {:induction false} RunInertOffExercise(c: Counter, exercise: int, range: Range, trace: seq<Option<real>>)
    requires exercise != 1
    ensures Run(c, exercise, range, trace) == c
    decreases |trace|
  {
    if trace != [] {
      RunInertOffExercise(c, exercise, range, trace[..|trace| - 1]);
    }
  }

  /** Repetitions never decrease as more samples arrive. */
  lemma {:induction false} RepsNeverDecrease(c: Counter, exercise: int, range: Range, trace: seq<Option<real>>, k: nat)
    requires k <= |trace|
    ensures Run(c, exercise, range, trace[..k]).reps <= Run(c, exercise, range, trace).reps
    decreases |trace|
  {
    if k < |trace| {
      var prefix := trace[..|trace| - 1];
      assert prefix[..k] == trace[..k];
      RepsNeverDecrease(c, exercise, range, prefix, k);
    } else {
      assert trace[..k] == trace;
    }
  }

  /** No `false` after the first position means no crossing at all. */
  lemma {:induction false} NoFalseNoCrossing(b: seq<bool>)
    requires forall i :: 1 <= i < |b| ==> b[i]
    ensures Crossings(b) == 0
    decreases |b|
  {
    if |b| >= 2 {
      NoFalseNoCrossing(b[..|b| - 1]);
    }
  }

  /** Staying in the range (or not being seen) never counts a repetition. */
  lemma NoExitNoCount(c: Counter, range: Range, trace: seq<Option<real>>)
    requires forall i :: 0 <= i < |trace| && trace[i].Some? ==> InRange(trace[i].value, range)
    ensures Run(c, 1, range, trace).reps == c.reps
  {
    UsableAllTrue(range, trace);
    RunCountsCrossings(c, range, trace);
    NoFalseNoCrossing([c.stage == In] + Usable(range, trace));
  }

  lemma {:induction false} UsableAllTrue(range: Range, trace: seq<Option<real>>)
    requires forall i :: 0 <= i < |trace| && trace[i].Some? ==> InRange(trace[i].value, range)
    ensures forall i :: 0 <= i < |Usable(range, trace)| ==> Usable(range, trace)[i]
    decreases |trace|
  {
    if trace != [] {
      UsableAllTrue(range, trace[..|trace| - 1]);
    }
  }

  /** Each crossing needs its own `true` and `false`, so at most half the positions cross. */
  lemma {:induction false} CrossingsAtMostHalf(b: seq<bool>)
    ensures 2 * Crossings(b) + (if |b| > 0 && b[|b| - 1] then 1 else 0) <= |b|
    decreases |b|
  {
    if |b| >= 2 {
      CrossingsAtMostHalf(b[..|b| - 1]);
    } else if |b| == 1 {
    }
  }

  /**
   Debouncing: a repetition takes one sample to enter and one to leave,
   so k usable samples add at most (k + 1) / 2 repetitions.
   */
  lemma Debounced(c: Counter, range: Range, trace: seq<Option<real>>)
    ensures 2 * (Run(c, 1, range, trace).reps - c.reps) <= |Usable(range, trace)| + 1
    ensures 2 * (Run(c, 1, range, trace).reps - c.reps) <= |trace| + 1
  {
    RunCountsCrossings(c, range, trace);
    CrossingsAtMostHalf([c.stage == In] + Usable(range, trace));
  }

  /** The feedback shown for a sample agrees with the stage the counter moves to. */
  lemma FeedbackAgreesWithStage(c: Counter, a: real, range: Range)
    ensures Step(c, 1, Some(a), range).stage == In <==> Classify(Some(a), range).message == Correct
  {
  }

  /**
   A worked trace with the range [160, 180]: the angle enters, stays,
   leaves at 150, enters again and leaves at 140, so two repetitions are
   counted and the counter ends outside the range.
   */
  lemma TwoExitsCountTwo()
    ensures Run(Fresh, 1, Range(160, 180), [Some(170.0), Some(175.0), Some(150.0), Some(170.0), Some(140.0)])
         == Counter(Out, 2)
  {
    var r := Range(160, 180);
    var t: seq<Option<real>> := [Some(170.0), Some(175.0), Some(150.0), Some(170.0), Some(140.0)];
    assert |t[..1][..0]| == 0;
    assert Run(Fresh, 1, r, t[..1]) == Counter(In, 0);
    assert t[..2][..1] == t[..1];
    assert Run(Fresh, 1, r, t[..2]) == Counter(In, 0);
    assert t[..3][..2] == t[..2];
    assert Run(Fresh, 1, r, t[..3]) == Counter(Out, 1);
    assert t[..4][..3] == t[..3];
    assert Run(Fresh, 1, r, t[..4]) == Counter(In, 1);
    assert t[..4] == t[..|t| - 1];
  }
}
