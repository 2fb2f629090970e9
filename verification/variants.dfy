/**
 How the two variants of the program relate: pose_utils.py folds a raw
 turn into [0, 180] while esqueleto.py stops at [0, 360), and the fixed
 straight-limb feedback of esqueleto.py is the GUI's range classifier
 on [160, 180].
 */
module Variants {
  import opened Wrappers
  import opened Colours
  import PoseUtils
  import Skeleton
  import GuiFeedback

  /** The folded angle is the smaller of the unbounded angle and its explement. */
  lemma FoldIsSmallerSide(d: real)
    requires -360.0 < d < 360.0
    ensures var w := Skeleton.WrapAngle(d);
      PoseUtils.FoldAngle(d) == if w <= 180.0 then w else 360.0 - w
  {
  }

  /** The two variants agree exactly when the unbounded angle is not reflex. */
  lemma PoliciesAgreeIffNotReflex(d: real)
    requires -360.0 < d < 360.0
    ensures PoseUtils.FoldAngle(d) == Skeleton.WrapAngle(d) <==> Skeleton.WrapAngle(d) <= 180.0
  {
  }

  /**
   The unbounded variant is not symmetric: reversing a non-zero turn
   gives the explement, so a mirrored limb reads as 360 minus the angle.
   */
  lemma WrapReversedIsExplement(d: real)
    requires -360.0 < d < 360.0 && d != 0.0
    ensures Skeleton.WrapAngle(-d) == 360.0 - Skeleton.WrapAngle(d)
  {
  }

  /**
   Consequence for the straight-limb feedback: a 170 degree limb turned
   the other way reads 190 in esqueleto.py and is told to correct itself,
   while the folded angle judges both orientations the same.
   */
  lemma MirroredLimbJudgedDifferently()
    ensures Skeleton.StraightFeedback(Skeleton.WrapAngle(170.0)).colour == Green
    ensures Skeleton.StraightFeedback(Skeleton.WrapAngle(-170.0)).colour == Red
    ensures PoseUtils.FoldAngle(-170.0) == PoseUtils.FoldAngle(170.0) == 170.0
  {
  }

  /** The fixed feedback of esqueleto.py is the GUI classifier with the range [160, 180]. */
  lemma StraightFeedbackIsClassify(angle: real)
    ensures var g := GuiFeedback.Classify(Some(angle), GuiFeedback.Range(160, 180));
      && Skeleton.StraightFeedback(angle).colour == g.colour
      && (Skeleton.StraightFeedback(angle).text == Skeleton.CorrectText <==> g.message == GuiFeedback.Correct)
  {
  }
}
