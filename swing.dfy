/**
 * Swing phases and the per-phase pose buffers that the classifier fills:
 * `SwingPhase`, `SwingPosition`, `SwingPhaseData` and `FullSwing`.
 */
module Swing {
  import opened Pose

  /** The phases of a swing, in declaration order. */
  datatype SwingPhase = NotEngaged | Ready | BackSwing | DownSwing | FollowThrough

  /** Position of a phase in the declaration order. */
  function Ordinal(p: SwingPhase): (n: nat)
    ensures n < 5
    ensures p == NotEngaged <==> n == 0
  {
    match p
    case NotEngaged => 0
    case Ready => 1
    case BackSwing => 2
    case DownSwing => 3
    case FollowThrough => 4
  }

  /** The phase that follows `p` in a swing; the last phase has none. */
  function Next(p: SwingPhase): (q: SwingPhase)
    requires p != FollowThrough
    ensures Ordinal(q) == Ordinal(p) + 1
  {
    match p
    case NotEngaged => Ready
    case Ready => BackSwing
    case BackSwing => DownSwing
    case DownSwing => FollowThrough
  }

  /** One captured pose. */
  datatype SwingPosition = SwingPosition(pose: PoseFrame)

  /** The value held by one phase buffer: its two time stamps and its poses in capture order. */
  datatype PhaseBuffer = PhaseBuffer(startTime: int, endTime: int, poses: seq<SwingPosition>)

  /** The value held by a whole swing: one buffer per captured phase. */
  datatype FullSwingValue = FullSwingValue(backSwing: PhaseBuffer, downSwing: PhaseBuffer, followThrough: PhaseBuffer)

  const EmptyBuffer: PhaseBuffer := PhaseBuffer(0, 0, [])
  const EmptySwing: FullSwingValue := FullSwingValue(EmptyBuffer, EmptyBuffer, EmptyBuffer)

  /** The buffer value after one more pose was captured. */
  function Appended(b: PhaseBuffer, pose: PoseFrame): (r: PhaseBuffer)
    ensures |r.poses| == |b.poses| + 1 && r.poses[..|b.poses|] == b.poses
    ensures r.poses[|b.poses|] == SwingPosition(pose)
    ensures r.startTime == b.startTime && r.endTime == b.endTime
  {
    b.(poses := b.poses + [SwingPosition(pose)])
  }

  /** A mutable phase buffer: append-only poses and two time stamps (0 until set). */
  class SwingPhaseData {
    var startTime: int
    var endTime: int
    var bodyPositions: seq<SwingPosition>

    ghost function Value(): PhaseBuffer
      reads this
    {
      PhaseBuffer(startTime, endTime, bodyPositions)
    }

    constructor ()
      ensures startTime == 0 && endTime == 0 && bodyPositions == []
      ensures Value() == EmptyBuffer
    {
      startTime := 0;
      endTime := 0;
      bodyPositions := [];
    }

    /** Appends one position wrapping `pose`; earlier entries and both times are kept. */
    method AddPose(pose: PoseFrame)
      modifies this
      ensures bodyPositions == old(bodyPositions) + [SwingPosition(pose)]
      ensures startTime == old(startTime) && endTime == old(endTime)
      ensures Value() == Appended(old(Value()), pose)
    {
      bodyPositions := bodyPositions + [SwingPosition(pose)];
    }

    /** A copy of the captured positions, in insertion order. */
    method GetPoses() returns (poses: seq<SwingPosition>)
      ensures |poses| == |bodyPositions|
      ensures forall i :: 0 <= i < |poses| ==> poses[i] == bodyPositions[i]
    {
      poses := bodyPositions;
    }
  }

  /**
   * A list handed out by GetPoses is a snapshot: a later AddPose changes the
   * buffer but not the list obtained before it.
   */
  method SnapshotSurvivesAddPose(data: SwingPhaseData, pose: PoseFrame) returns (snapshot: seq<SwingPosition>)
    modifies data
    ensures snapshot == old(data.bodyPositions)
    ensures data.bodyPositions == snapshot + [SwingPosition(pose)]
  {
    snapshot := data.GetPoses();
    data.AddPose(pose);
  }

  /** The three buffers of one swing attempt. */
  class FullSwing {
    const backSwingData: SwingPhaseData
    const downSwingPhaseData: SwingPhaseData
    const followThroughPhaseData: SwingPhaseData

    /** The three buffers are distinct objects, so writing one leaves the others alone. */
    ghost predicate Valid()
    {
      && backSwingData != downSwingPhaseData
      && backSwingData != followThroughPhaseData
      && downSwingPhaseData != followThroughPhaseData
    }

    ghost function Buffers(): set<object>
    {
      {backSwingData, downSwingPhaseData, followThroughPhaseData}
    }

    ghost function Value(): FullSwingValue
      reads Buffers()
    {
      FullSwingValue(backSwingData.Value(), downSwingPhaseData.Value(), followThroughPhaseData.Value())
    }

    constructor ()
      ensures Valid()
      ensures fresh(backSwingData) && fresh(downSwingPhaseData) && fresh(followThroughPhaseData)
      ensures Value() == EmptySwing
    {
      backSwingData := new SwingPhaseData();
      downSwingPhaseData := new SwingPhaseData();
      followThroughPhaseData := new SwingPhaseData();
    }
  }
}
