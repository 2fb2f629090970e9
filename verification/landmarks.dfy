/**
 The pose data the pose estimator hands over for one frame, and the one
 transcendental step of the angle computation.

 MediaPipe's pose model reports 33 landmarks, indexed by its
 `PoseLandmark` enumeration; the indices below are that library's.
 */
module Landmarks {

  /** One landmark: normalised image coordinates and a visibility score. */
  datatype Landmark = Landmark(x: real, y: real, visibility: real)

  const LandmarkCount := 33

  /** The landmark list of one detected pose. */
  type Pose = s: seq<Landmark> | |s| == LandmarkCount
    witness seq(LandmarkCount, _ => Landmark(0.0, 0.0, 0.0))

  type Joint = i: int | 0 <= i < LandmarkCount

  const LeftShoulder: Joint := 11
  const RightShoulder: Joint := 12
  const LeftElbow: Joint := 13
  const RightElbow: Joint := 14
  const LeftWrist: Joint := 15
  const RightWrist: Joint := 16
  const LeftHip: Joint := 23
  const RightHip: Joint := 24
  const LeftKnee: Joint := 25
  const RightKnee: Joint := 26
  const LeftAnkle: Joint := 27
  const RightAnkle: Joint := 28

  /** Three joints whose middle one is the vertex of the measured angle. */
  datatype Limb = Limb(proximal: Joint, vertex: Joint, distal: Joint)

  const LeftArm := Limb(LeftShoulder, LeftElbow, LeftWrist)
  const RightArm := Limb(RightShoulder, RightElbow, RightWrist)
  const LeftLeg := Limb(LeftHip, LeftKnee, LeftAnkle)
  const RightLeg := Limb(RightHip, RightKnee, RightAnkle)

  /** The two-element `[x, y]` list the source builds from a landmark. */
  datatype Point = Point(x: real, y: real)

  function Position(l: Landmark): Point {
    Point(l.x, l.y)
  }

  /**
   `degrees(arctan2(dy, dx))`: the direction of a ray in degrees. It is
   transcendental, so the model takes it as a parameter and keeps only its
   range, (-180, 180] over the reals.
   */
  type Bearing = f: (real, real) -> real | forall dy: real, dx: real :: -180.0 < f(dy, dx) <= 180.0
    witness (dy: real, dx: real) => 0.0

  /**
   The raw turn from the ray vertex->p1 to the ray vertex->p3, before any
   normalisation: the bearing of the distal ray minus that of the proximal one.
   */
  function RawTurn(bearing: Bearing, p1: Point, p2: Point, p3: Point): (d: real)
    ensures -360.0 < d < 360.0
  {
    bearing(p3.y - p2.y, p3.x - p2.x) - bearing(p1.y - p2.y, p1.x - p2.x)
  }

  /** Measuring from the other end turns the same amount the other way. */
  lemma RawTurnReversed(bearing: Bearing, p1: Point, p2: Point, p3: Point)
    ensures RawTurn(bearing, p3, p2, p1) == -RawTurn(bearing, p1, p2, p3)
  {
  }
}
