/**
 The interior-angle variant of the joint-angle estimator (pose_utils.py):
 angles are folded into [0, 180], a landmark counts as visible above a
 confidence of 0.3, and an elbow or knee angle is measured on the side
 the user picked.
 */
module PoseUtils {
  import opened Wrappers
  import opened Landmarks

  const VisibilityThreshold: real := 0.3

  /** `articulacion_visible`: the confidence must be strictly above the threshold. */
  predicate ArticulationVisible(pose: Pose, joint: Joint)
    ensures ArticulationVisible(pose, joint) ==> pose[joint].visibility > 0.3
    ensures pose[joint].visibility <= 0.3 ==> !ArticulationVisible(pose, joint)
  {
    pose[joint].visibility > VisibilityThreshold
  }

  /** A landmark exactly at the threshold is not visible; anything above it is. */
  lemma VisibilityIsStrict(pose: Pose, joint: Joint)
    ensures pose[joint].visibility == 0.3 ==> !ArticulationVisible(pose, joint)
    ensures ArticulationVisible(pose, joint) <==> pose[joint].visibility > 0.3
  {
  }

  /**
   Folds a raw turn into the interior angle: a negative turn is first
   taken the long way round (+360), and a reflex angle is replaced by
   its explement.
   */
  function FoldAngle(d: real): (r: real)
    requires -360.0 < d < 360.0
    ensures 0.0 <= r <= 180.0
    ensures 0.0 <= d <= 180.0 ==> r == d
    ensures r == d || r == -d || r == d + 360.0 || r == 360.0 - d
  {
    var a := if d < 0.0 then d + 360.0 else d;
    if a > 180.0 then 360.0 - a else a
  }

  /** The interior angle does not depend on the direction of the turn. */
  lemma FoldAngleSymmetric(d: real)
    requires -360.0 < d < 360.0
    ensures FoldAngle(-d) == FoldAngle(d)
  {
  }

  /** `calcular_angulo(p1, p2, p3)`: the interior angle at vertex `p2`. */
  function InteriorAngle(bearing: Bearing, p1: Point, p2: Point, p3: Point): (r: real)
    ensures 0.0 <= r <= 180.0
    ensures var d := RawTurn(bearing, p1, p2, p3);
      && (0.0 <= d <= 180.0 ==> r == d)
      && (r == d || r == -d || r == d + 360.0 || r == 360.0 - d)
  {
    FoldAngle(RawTurn(bearing, p1, p2, p3))
  }

  /** Swapping the two end points gives the same interior angle. */
  lemma InteriorAngleSymmetric(bearing: Bearing, p1: Point, p2: Point, p3: Point)
    ensures InteriorAngle(bearing, p3, p2, p1) == InteriorAngle(bearing, p1, p2, p3)
  {
    RawTurnReversed(bearing, p1, p2, p3);
    FoldAngleSymmetric(RawTurn(bearing, p1, p2, p3));
  }

  predicate LimbVisible(pose: Pose, limb: Limb) {
    && ArticulationVisible(pose, limb.proximal)
    && ArticulationVisible(pose, limb.vertex)
    && ArticulationVisible(pose, limb.distal)
  }

  /** The angle at a limb's vertex, or None unless all three joints are visible. */
  function DetectLimb(pose: Pose, limb: Limb, bearing: Bearing): (r: Option<real>)
    ensures r.Some? <==> LimbVisible(pose, limb)
    ensures r.Some? ==> 0.0 <= r.value <= 180.0
    ensures r.Some? ==> r.value == InteriorAngle(bearing, Position(pose[limb.proximal]),
                                                 Position(pose[limb.vertex]), Position(pose[limb.distal]))
  {
    if LimbVisible(pose, limb) then
      Some(InteriorAngle(bearing, Position(pose[limb.proximal]), Position(pose[limb.vertex]), Position(pose[limb.distal])))
    else
      None
  }

  /** "izq" selects the left side; every other value selects the right one. */
  function ArmOf(side: string): (limb: Limb)
    ensures side == "izq" ==> limb == LeftArm
    ensures side != "izq" ==> limb == RightArm
  {
    if side == "izq" then LeftArm else RightArm
  }

  function LegOf(side: string): (limb: Limb)
    ensures side == "izq" ==> limb == LeftLeg
    ensures side != "izq" ==> limb == RightLeg
  {
    if side == "izq" then LeftLeg else RightLeg
  }

  /** `detectar_codo`: shoulder-elbow-wrist angle of the chosen side. */
  function DetectElbow(pose: Pose, side: string, bearing: Bearing): (r: Option<real>)
    ensures r.Some? <==>
      if side == "izq" then
        pose[LeftShoulder].visibility > 0.3 && pose[LeftElbow].visibility > 0.3 && pose[LeftWrist].visibility > 0.3
      else
        pose[RightShoulder].visibility > 0.3 && pose[RightElbow].visibility > 0.3 && pose[RightWrist].visibility > 0.3
    ensures r.Some? ==> 0.0 <= r.value <= 180.0
    ensures r.Some? && side == "izq" ==>
      r.value == InteriorAngle(bearing, Position(pose[LeftShoulder]), Position(pose[LeftElbow]), Position(pose[LeftWrist]))
    ensures r.Some? && side != "izq" ==>
      r.value == InteriorAngle(bearing, Position(pose[RightShoulder]), Position(pose[RightElbow]), Position(pose[RightWrist]))
  {
    DetectLimb(pose, ArmOf(side), bearing)
  }

  /** `detectar_rodilla`: hip-knee-ankle angle of the chosen side. */
  function DetectKnee(pose: Pose, side: string, bearing: Bearing): (r: Option<real>)
    ensures r.Some? <==>
      if side == "izq" then
        pose[LeftHip].visibility > 0.3 && pose[LeftKnee].visibility > 0.3 && pose[LeftAnkle].visibility > 0.3
      else
        pose[RightHip].visibility > 0.3 && pose[RightKnee].visibility > 0.3 && pose[RightAnkle].visibility > 0.3
    ensures r.Some? ==> 0.0 <= r.value <= 180.0
    ensures r.Some? && side == "izq" ==>
      r.value == InteriorAngle(bearing, Position(pose[LeftHip]), Position(pose[LeftKnee]), Position(pose[LeftAnkle]))
    ensures r.Some? && side != "izq" ==>
      r.value == InteriorAngle(bearing, Position(pose[RightHip]), Position(pose[RightKnee]), Position(pose[RightAnkle]))
  {
    DetectLimb(pose, LegOf(side), bearing)
  }

  /** Two poses that agree on a limb's three landmarks give it the same angle. */
  predicate AgreeOn(p: Pose, q: Pose, limb: Limb) {
    p[limb.proximal] == q[limb.proximal] && p[limb.vertex] == q[limb.vertex] && p[limb.distal] == q[limb.distal]
  }

  /**
   Only the chosen side's landmarks matter, and any side other than "izq"
   behaves exactly like "der".
   */
  lemma DetectElbowSideSelection(p: Pose, q: Pose, side: string, bearing: Bearing)
    ensures side != "izq" ==> DetectElbow(p, side, bearing) == DetectElbow(p, "der", bearing)
    ensures side == "izq" && AgreeOn(p, q, LeftArm) ==> DetectElbow(p, side, bearing) == DetectElbow(q, side, bearing)
    ensures side != "izq" && AgreeOn(p, q, RightArm) ==> DetectElbow(p, side, bearing) == DetectElbow(q, side, bearing)
  {
  }

  lemma DetectKneeSideSelection(p: Pose, q: Pose, side: string, bearing: Bearing)
    ensures side != "izq" ==> DetectKnee(p, side, bearing) == DetectKnee(p, "der", bearing)
    ensures side == "izq" && AgreeOn(p, q, LeftLeg) ==> DetectKnee(p, side, bearing) == DetectKnee(q, side, bearing)
    ensures side != "izq" && AgreeOn(p, q, RightLeg) ==> DetectKnee(p, side, bearing) == DetectKnee(q, side, bearing)
  {
  }
}
