/**
 The standalone skeleton viewer (esqueleto.py): the unbounded angle
 variant in [0, 360), a stricter visibility threshold of 0.5, a fixed
 "straight limb" range of 160..180 degrees, and a feedback overlay for
 each limb whose three joints are visible, left and right independently.
 */
module Skeleton {
  import opened Wrappers
  import opened Colours
  import opened Landmarks

  const VisibilityThreshold: real := 0.5

  /** `articulacion_visible` of this file: strictly above 0.5. */
  predicate ArticulationVisible(pose: Pose, joint: Joint)
    ensures ArticulationVisible(pose, joint) ==> pose[joint].visibility > 0.5
    ensures pose[joint].visibility <= 0.5 ==> !ArticulationVisible(pose, joint)
  {
    pose[joint].visibility > VisibilityThreshold
  }

  lemma VisibilityIsStrict(pose: Pose, joint: Joint)
    ensures pose[joint].visibility == 0.5 ==> !ArticulationVisible(pose, joint)
    ensures ArticulationVisible(pose, joint) <==> pose[joint].visibility > 0.5
  {
  }

  /** Brings a raw turn into [0, 360) by adding one full turn to a negative one. */
  function WrapAngle(d: real): (r: real)
    requires -360.0 < d < 360.0
    ensures 0.0 <= r < 360.0
    ensures r == d || r == d + 360.0
  {
    if d < 0.0 then d + 360.0 else d
  }

  /** `calcular_angulo(p1, p2, p3)` of this file: the turn at `p2`, unfolded. */
  function TurnAngle(bearing: Bearing, p1: Point, p2: Point, p3: Point): (r: real)
    ensures 0.0 <= r < 360.0
  {
    WrapAngle(RawTurn(bearing, p1, p2, p3))
  }

  const CorrectText := "Ejercicio correcto"
  const CorrectionText := "Corrige el ángulo. Debe estar recto."

  datatype Feedback = Feedback(text: string, colour: Colour)

  /** `feedback_ejercicio(angulo)`: green only for a straight limb, 160..180 inclusive. */
  function StraightFeedback(angle: real): (f: Feedback)
    ensures f.colour == Green <==> 160.0 <= angle <= 180.0
    ensures f.colour == Green || f.colour == Red
    ensures f.text == CorrectText <==> f.colour == Green
    ensures f.text == CorrectionText <==> f.colour == Red
  {
    if 160.0 <= angle <= 180.0 then Feedback(CorrectText, Green)
    else Feedback(CorrectionText, Red)
  }

  predicate LimbVisible(pose: Pose, limb: Limb) {
    && ArticulationVisible(pose, limb.proximal)
    && ArticulationVisible(pose, limb.vertex)
    && ArticulationVisible(pose, limb.distal)
  }

  /** The unbounded angle at a limb's vertex, from its three landmark positions. */
  function LimbAngle(pose: Pose, limb: Limb, bearing: Bearing): (r: real)
    ensures 0.0 <= r < 360.0
    ensures var d := RawTurn(bearing, Position(pose[limb.proximal]), Position(pose[limb.vertex]), Position(pose[limb.distal]));
      r == d || r == d + 360.0
  {
    TurnAngle(bearing, Position(pose[limb.proximal]), Position(pose[limb.vertex]), Position(pose[limb.distal]))
  }

  /** One `cv2.putText` call: text, origin and colour. */
  datatype Overlay = Overlay(text: string, x: int, y: int, colour: Colour)

  /** What is drawn for the left limb (row 50) and the right limb (row 100). */
  datatype Overlays = Overlays(left: Option<Overlay>, right: Option<Overlay>)

  /** The overlay for one limb, drawn only when all three of its joints are visible. */
  function LimbOverlay(pose: Pose, limb: Limb, prefix: string, row: int, bearing: Bearing): (r: Option<Overlay>)
    ensures r.Some? <==> LimbVisible(pose, limb)
    ensures r.Some? ==> var f := StraightFeedback(LimbAngle(pose, limb, bearing));
      r.value == Overlay(prefix + f.text, 50, row, f.colour)
  {
    if LimbVisible(pose, limb) then
      var f := StraightFeedback(LimbAngle(pose, limb, bearing));
      Some(Overlay(prefix + f.text, 50, row, f.colour))
    else
      None
  }

  /** `detectar_parte_superior`: one overlay per visible arm. */
  function UpperBody(pose: Pose, bearing: Bearing): (r: Overlays)
    ensures r.left.Some? <==> LimbVisible(pose, LeftArm)
    ensures r.right.Some? <==> LimbVisible(pose, RightArm)
    ensures r.left.Some? ==> r.left.value.y == 50 && "B. IZQ. = " <= r.left.value.text
    ensures r.right.Some? ==> r.right.value.y == 100 && "B. DER. = " <= r.right.value.text
    ensures r.left == LimbOverlay(pose, LeftArm, "B. IZQ. = ", 50, bearing)
    ensures r.right == LimbOverlay(pose, RightArm, "B. DER. = ", 100, bearing)
  {
    Overlays(LimbOverlay(pose, LeftArm, "B. IZQ. = ", 50, bearing),
             LimbOverlay(pose, RightArm, "B. DER. = ", 100, bearing))
  }

  /** `detectar_parte_inferior`: one overlay per visible leg. */
  function LowerBody(pose: Pose, bearing: Bearing): (r: Overlays)
    ensures r.left.Some? <==> LimbVisible(pose, LeftLeg)
    ensures r.right.Some? <==> LimbVisible(pose, RightLeg)
    ensures r.left.Some? ==> r.left.value.y == 50 && "P. IZQ. = " <= r.left.value.text
    ensures r.right.Some? ==> r.right.value.y == 100 && "P. DER. = " <= r.right.value.text
    ensures r.left == LimbOverlay(pose, LeftLeg, "P. IZQ. = ", 50, bearing)
    ensures r.right == LimbOverlay(pose, RightLeg, "P. DER. = ", 100, bearing)
  {
    Overlays(LimbOverlay(pose, LeftLeg, "P. IZQ. = ", 50, bearing),
             LimbOverlay(pose, RightLeg, "P. DER. = ", 100, bearing))
  }

  /** The body-part dispatch of `App.update_frame`: exercise 1 is arms, 2 is legs, others draw nothing. */
  function FrameOverlays(exercise: int, pose: Option<Pose>, bearing: Bearing): (r: Option<Overlays>)
    ensures r.Some? <==> pose.Some? && (exercise == 1 || exercise == 2)
    ensures exercise == 1 && pose.Some? ==> r == Some(UpperBody(pose.value, bearing))
    ensures exercise == 2 && pose.Some? ==> r == Some(LowerBody(pose.value, bearing))
  {
    match pose
    case None => None
    case Some(p) =>
      if exercise == 1 then Some(UpperBody(p, bearing))
      else if exercise == 2 then Some(LowerBody(p, bearing))
      else None
  }

  /**
   Left and right are judged independently: a change to the right arm's
   landmarks cannot change the left arm's overlay, and vice versa.
   */
  lemma SidesIndependent(p: Pose, q: Pose, bearing: Bearing)
    ensures p[LeftShoulder] == q[LeftShoulder] && p[LeftElbow] == q[LeftElbow] && p[LeftWrist] == q[LeftWrist]
      ==> UpperBody(p, bearing).left == UpperBody(q, bearing).left
    ensures p[RightShoulder] == q[RightShoulder] && p[RightElbow] == q[RightElbow] && p[RightWrist] == q[RightWrist]
      ==> UpperBody(p, bearing).right == UpperBody(q, bearing).right
    ensures p[LeftHip] == q[LeftHip] && p[LeftKnee] == q[LeftKnee] && p[LeftAnkle] == q[LeftAnkle]
      ==> LowerBody(p, bearing).left == LowerBody(q, bearing).left
    ensures p[RightHip] == q[RightHip] && p[RightKnee] == q[RightKnee] && p[RightAnkle] == q[RightAnkle]
      ==> LowerBody(p, bearing).right == LowerBody(q, bearing).right
  {
  }
}
