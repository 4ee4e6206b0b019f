/**
 * The pose skeleton delivered by the pose detector for one camera frame, and
 * the fixed set of landmarks whose visibility gates swing analysis.
 */
module Pose {

  /** The 33 landmark kinds a pose detector reports. */
  datatype LandmarkType =
    | Nose
    | LeftEyeInner | LeftEye | LeftEyeOuter
    | RightEyeInner | RightEye | RightEyeOuter
    | LeftEar | RightEar
    | LeftMouth | RightMouth
    | LeftShoulder | RightShoulder
    | LeftElbow | RightElbow
    | LeftWrist | RightWrist
    | LeftPinky | RightPinky
    | LeftIndex | RightIndex
    | LeftThumb | RightThumb
    | LeftHip | RightHip
    | LeftKnee | RightKnee
    | LeftAnkle | RightAnkle
    | LeftHeel | RightHeel
    | LeftFootIndex | RightFootIndex

  /** A position in the image plane; y grows downwards. */
  datatype Point = Point(x: real, y: real)

  /** One detected landmark: its kind and how likely it is to lie inside the frame. */
  datatype Landmark = Landmark(landmarkType: LandmarkType, inFrameLikelihood: real)

  /**
   * A detected pose: every landmark with its in-frame likelihood, plus the
   * positions of the four landmarks the swing classifier reads.
   */
  datatype PoseFrame = PoseFrame(
    allPoseLandmarks: seq<Landmark>,
    leftWrist: Point,
    rightWrist: Point,
    leftHip: Point,
    rightHip: Point)

  /** The landmarks that must be visible for a frame to be analysed. */
  const DrawablePoints: set<LandmarkType> := {
    LeftShoulder, RightShoulder,
    LeftElbow, RightElbow,
    LeftWrist, RightWrist,
    LeftHip, RightHip,
    LeftKnee, RightKnee,
    LeftAnkle, RightAnkle,
    RightEye, LeftEye,
    Nose
  }

  /**
   * The gate covers the wrists and hips the classifier reads; ears, mouth,
   * fingers, heels and toes are not gated.
   */
  lemma DrawablePointsCoverTrackedLandmarks()
    ensures {LeftWrist, RightWrist, LeftHip, RightHip} <= DrawablePoints
    ensures DrawablePoints !! {LeftEar, RightEar, LeftMouth, RightMouth, LeftPinky, RightPinky,
                               LeftHeel, RightHeel, LeftFootIndex, RightFootIndex}
  {
  }

  /** A landmark counts as visible when its likelihood is strictly above this. */
  const VisibilityThreshold: real := 0.5

  /** Every landmark of the drawable set is likely to be in the frame; others are ignored. */
  predicate InFrame(landmarks: seq<Landmark>)
  {
    forall i :: 0 <= i < |landmarks| && landmarks[i].landmarkType in DrawablePoints ==>
      landmarks[i].inFrameLikelihood > VisibilityThreshold
  }

  /** Midpoint of the two wrists: the hand position the classifier tracks. */
  function HandPosition(pose: PoseFrame): (p: Point)
    ensures p.y - pose.leftWrist.y == pose.rightWrist.y - p.y
    ensures p.x - pose.leftWrist.x == pose.rightWrist.x - p.x
  {
    Point((pose.rightWrist.x + pose.leftWrist.x) / 2.0, (pose.rightWrist.y + pose.leftWrist.y) / 2.0)
  }

  /** Mean height of the two hips. */
  function HipHeight(pose: PoseFrame): (y: real)
    ensures y - pose.leftHip.y == pose.rightHip.y - y
  {
    (pose.rightHip.y + pose.leftHip.y) / 2.0
  }
}
