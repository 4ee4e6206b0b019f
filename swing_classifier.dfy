/**
 * The swing-phase classifier as a pure state machine over `Tracker` values.
 *
 * This is the specification that the imperative `SwingDetectorProcessor`
 * class is proved against: every method of that class leaves its fields equal
 * to the corresponding function below applied to their old values. The
 * properties of the classifier are proved here, on values.
 */
module SwingClassifier {
  import opened Wrappers
  import opened Pose
  import opened Swing

  /** Consecutive resting frames needed before a swing is "ready". */
  const RestingFrames: int := 10
  const InitialLowestHandVal: real := -1.0
  const InitialHighestHandVal: real := 9000.0
  const InitialMaxJiggle: real := 1.5
  /** How far the hand must pass a tracked extreme before a threshold transition. */
  const ChangeBuffer: real := 5.0

  /**
   * The two copies of the processor: `Swingly` (package com.golfapp.swingly)
   * and `GolfSwingAnalyzer` (the older package com.example.golfswinganalyzer),
   * which reports every processed frame of a swing and dereferences the swing
   * with `!!` when its timer fires.
   */
  datatype Variant = Swingly | GolfSwingAnalyzer

  /** The callbacks the processor makes on its camera manager. */
  datatype Event =
    | PromptGetInFrame
    | PhaseProcessed
    | SwingReady
    | SwingFinished(swing: Option<FullSwingValue>)

  /** The classifier's fields; `swing` is the nullable `fullSwingData`. */
  datatype Tracker = Tracker(
    current: SwingPhase,
    previous: SwingPhase,
    restingCounter: int,
    lowestHandVal: real,
    highestHandVal: real,
    previousHand: Point,
    maxJiggle: real,
    frameJiggle: real,
    swing: Option<FullSwingValue>,
    pendingTimers: nat)

  /** The tracker after one operation, and the callbacks it made, in order. */
  datatype Step = Step(tracker: Tracker, events: seq<Event>)

  /** One camera frame handed to the classifier, with the clock reading at that time. */
  datatype FrameInput = FrameInput(pose: PoseFrame, now: int)

  function Abs(x: real): (r: real)
    ensures r >= 0.0 && (r == x || r == -x)
  {
    if x < 0.0 then -x else x
  }

  function Max(a: real, b: real): (r: real)
    ensures r >= a && r >= b && (r == a || r == b)
  {
    if a >= b then a else b
  }

  /**
   * Only captured phases hold poses, and each buffer is written only while
   * its phase (or a later one) is active.
   */
  ghost predicate SwingShape(phase: SwingPhase, v: FullSwingValue)
  {
    && v.backSwing.startTime == 0
    && v.followThrough.endTime == 0
    && (phase == Ready ==> v == EmptySwing)
    && (phase == BackSwing ==>
          v.backSwing.endTime == 0 && v.downSwing.endTime == 0 && v.downSwing.poses == [] && v.followThrough == EmptyBuffer)
    && (phase == DownSwing ==> v.downSwing.endTime == 0 && v.followThrough == EmptyBuffer)
  }

  /** The invariant every reachable tracker satisfies. */
  ghost predicate Valid(t: Tracker)
  {
    && 0 <= t.restingCounter <= RestingFrames
    && (t.current == NotEngaged ==> 1 <= t.restingCounter && t.swing.None?)
    && (t.current == NotEngaged && t.previous != NotEngaged ==> t.restingCounter == RestingFrames)
    && (t.current != NotEngaged ==> t.previous == t.current && t.swing.Some? && SwingShape(t.current, t.swing.value))
    && t.maxJiggle >= InitialMaxJiggle
  }

  /** The field initialisers of a new processor. */
  function Initial(): (t: Tracker)
    ensures Valid(t)
    ensures t.current == NotEngaged && t.swing.None? && t.pendingTimers == 0
  {
    Tracker(NotEngaged, NotEngaged, RestingFrames, InitialLowestHandVal, InitialHighestHandVal,
            Point(0.0, 0.0), InitialMaxJiggle, 0.0, None, 0)
  }

  /**
   * `resetPositions`: every tracking field goes back to its initial value,
   * except `previous` and `maxJiggle`, which are kept.
   */
  function ResetPositions(t: Tracker): (r: Tracker)
    ensures r == Initial().(previous := t.previous, maxJiggle := t.maxJiggle, pendingTimers := t.pendingTimers)
    ensures Valid(t) ==> Valid(r)
  {
    t.(swing := None,
       lowestHandVal := InitialLowestHandVal,
       highestHandVal := InitialHighestHandVal,
       current := NotEngaged,
       previousHand := Point(0.0, 0.0),
       restingCounter := RestingFrames,
       frameJiggle := 0.0)
  }

  /** The hand is still (within the jiggle tolerance), at or below the hips, and no swing is engaged. */
  predicate Resting(current: SwingPhase, previousHand: Point, maxJiggle: real, hand: Point, hipY: real)
  {
    && Abs(hand.x - previousHand.x) <= maxJiggle
    && Abs(hand.y - previousHand.y) <= maxJiggle
    && hand.y >= hipY
    && current == NotEngaged
  }

  /** The hand rose above the lowest tracked position by at least the change buffer, from READY. */
  predicate IsBackSwingStarted(current: SwingPhase, lowestHandVal: real, changeBuffer: real, y: real)
    ensures changeBuffer > 0.0 ==>
              (IsBackSwingStarted(current, lowestHandVal, changeBuffer, y) <==>
                 current == Ready && lowestHandVal - y >= changeBuffer)
  {
    if Abs(y - lowestHandVal) < changeBuffer then false
    else y < lowestHandVal && current == Ready
  }

  /** The hand dropped below the highest tracked position by at least the change buffer, from BACK_SWING. */
  predicate IsDownSwingStarted(current: SwingPhase, highestHandVal: real, changeBuffer: real, y: real)
    ensures changeBuffer > 0.0 ==>
              (IsDownSwingStarted(current, highestHandVal, changeBuffer, y) <==>
                 current == BackSwing && y - highestHandVal >= changeBuffer)
  {
    if Abs(y - highestHandVal) < changeBuffer then false
    else y > highestHandVal && current == BackSwing
  }

  /** The hand stopped descending, from DOWN_SWING. */
  predicate IsFollowThroughStarted(current: SwingPhase, previousHand: Point, y: real)
    ensures IsFollowThroughStarted(current, previousHand, y) ==> current == DownSwing
    ensures current == DownSwing ==> (IsFollowThroughStarted(current, previousHand, y) <==> y <= previousHand.y)
  {
    y - previousHand.y <= 0.0 && current == DownSwing
  }

  /**
   * `progressSwingPhase`: the READY test runs first and always updates the
   * resting counter; the other tests are tried in order, and when none holds
   * the phase stays. Returns the new phase and the new counter.
   */
  function ProgressSwingPhase(t: Tracker, hand: Point, hipY: real): (r: (SwingPhase, int))
    ensures r.0 == t.current || (t.current != FollowThrough && r.0 == Next(t.current))
    ensures Resting(t.current, t.previousHand, t.maxJiggle, hand, hipY) ==> r.1 == t.restingCounter - 1
    ensures !Resting(t.current, t.previousHand, t.maxJiggle, hand, hipY) ==> r.1 == RestingFrames
    ensures r.0 == Ready && t.current != Ready <==>
              Resting(t.current, t.previousHand, t.maxJiggle, hand, hipY) && t.restingCounter == 1
    ensures r.0 == BackSwing && t.current != BackSwing <==>
              t.current == Ready && hand.y < t.lowestHandVal && Abs(hand.y - t.lowestHandVal) >= ChangeBuffer
    ensures r.0 == DownSwing && t.current != DownSwing <==>
              t.current == BackSwing && hand.y > t.highestHandVal && Abs(hand.y - t.highestHandVal) >= ChangeBuffer
    ensures r.0 == FollowThrough && t.current != FollowThrough <==>
              t.current == DownSwing && hand.y - t.previousHand.y <= 0.0
  {
    var prePhase := Resting(t.current, t.previousHand, t.maxJiggle, hand, hipY);
    var counter := if prePhase then t.restingCounter - 1 else RestingFrames;
    var phase :=
      if prePhase && counter == 0 then Ready
      else if IsBackSwingStarted(t.current, t.lowestHandVal, ChangeBuffer, hand.y) then BackSwing
      else if IsDownSwingStarted(t.current, t.highestHandVal, ChangeBuffer, hand.y) then DownSwing
      else if IsFollowThroughStarted(t.current, t.previousHand, hand.y) then FollowThrough
      else t.current;
    (phase, counter)
  }

  /** Every phase past READY is only reached while a swing is held. */
  lemma ProgressKeepsSwingHeld(t: Tracker, hand: Point, hipY: real)
    requires Valid(t)
    ensures var r := ProgressSwingPhase(t, hand, hipY);
            r.0 != NotEngaged && r.0 != Ready ==> t.swing.Some? && t.current != NotEngaged
  {
  }

  /** `trackLowPos`: the larger of the tracked value and the new position. */
  function TrackLowPos(lowestHandVal: real, y: real): (r: real)
    ensures r >= lowestHandVal && r >= y && (r == lowestHandVal || r == y)
  {
    if y > lowestHandVal then y else lowestHandVal
  }

  /** `trackHighPos`: the smaller of the tracked value and the new position. */
  function TrackHighPos(highestHandVal: real, y: real): (r: real)
    ensures r <= highestHandVal && r <= y && (r == highestHandVal || r == y)
  {
    if y < highestHandVal then y else highestHandVal
  }

  /** Appends the pose to the buffer of `phase` (a captured phase) of the held swing. */
  function Capture(s: Option<FullSwingValue>, phase: SwingPhase, pose: PoseFrame): Option<FullSwingValue>
  {
    match s
    case None => None
    case Some(v) =>
      Some(match phase
           case BackSwing => v.(backSwing := Appended(v.backSwing, pose))
           case DownSwing => v.(downSwing := Appended(v.downSwing, pose))
           case FollowThrough => v.(followThrough := Appended(v.followThrough, pose))
           case _ => v)
  }

  /** The per-frame report of the older copy; the newer one makes none. */
  function PhaseProcessedEvents(variant: Variant): seq<Event>
  {
    if variant == GolfSwingAnalyzer then [PhaseProcessed] else []
  }

  /** The per-frame side effects of the (already advanced) current phase. */
  function PhaseEffects(t: Tracker, pose: PoseFrame, hand: Point, variant: Variant): (s: Step)
    ensures var r := s.tracker;
            && r.current == t.current && r.previous == t.previous && r.restingCounter == t.restingCounter
            && r.previousHand == t.previousHand && r.pendingTimers == t.pendingTimers
            && r.maxJiggle >= t.maxJiggle && r.lowestHandVal >= t.lowestHandVal && r.highestHandVal <= t.highestHandVal
            && (r.swing.None? <==> t.swing.None?)
    ensures s.events == (if t.current == NotEngaged then [] else PhaseProcessedEvents(variant))
  {
    match t.current
    case NotEngaged => Step(t, [])
    case Ready =>
      var jiggle := Abs(t.previousHand.y - hand.y);
      Step(t.(frameJiggle := jiggle,
              maxJiggle := Max(jiggle, t.maxJiggle),
              lowestHandVal := TrackLowPos(t.lowestHandVal, hand.y)),
           PhaseProcessedEvents(variant))
    case BackSwing =>
      Step(t.(highestHandVal := TrackHighPos(t.highestHandVal, hand.y),
              swing := Capture(t.swing, BackSwing, pose)),
           PhaseProcessedEvents(variant))
    case DownSwing =>
      Step(t.(swing := Capture(t.swing, DownSwing, pose)), PhaseProcessedEvents(variant))
    case FollowThrough =>
      Step(t.(swing := Capture(t.swing, FollowThrough, pose)), PhaseProcessedEvents(variant))
  }

  /** The one-time time stamps written when `phase` is entered. */
  function Stamp(s: Option<FullSwingValue>, phase: SwingPhase, now: int): Option<FullSwingValue>
  {
    match s
    case None => None
    case Some(v) =>
      Some(match phase
           case BackSwing => v.(downSwing := v.downSwing.(startTime := now))
           case DownSwing => v.(backSwing := v.backSwing.(endTime := now), downSwing := v.downSwing.(startTime := now))
           case FollowThrough => v.(downSwing := v.downSwing.(endTime := now), followThrough := v.followThrough.(startTime := now))
           case _ => v)
  }

  /** The one-time actions run when the current phase differs from the previous one. */
  function TransitionActions(t: Tracker, now: int): (s: Step)
    ensures var r := s.tracker;
            && r.current == t.current && r.previous == t.previous && r.restingCounter == t.restingCounter
            && r.previousHand == t.previousHand && r.maxJiggle == t.maxJiggle
            && r.lowestHandVal == t.lowestHandVal && r.highestHandVal == t.highestHandVal
            && r.pendingTimers == t.pendingTimers + (if t.current == FollowThrough then 1 else 0)
            && (t.current == Ready ==> r.swing == Some(EmptySwing))
            && (t.current != Ready ==> (r.swing.None? <==> t.swing.None?))
    ensures s.events == (if t.current == Ready then [SwingReady] else [])
  {
    match t.current
    case NotEngaged => Step(t, [])
    case Ready => Step(t.(swing := Some(EmptySwing)), [SwingReady])
    case BackSwing => Step(t.(swing := Stamp(t.swing, BackSwing, now)), [])
    case DownSwing => Step(t.(swing := Stamp(t.swing, DownSwing, now)), [])
    case FollowThrough =>
      Step(t.(swing := Stamp(t.swing, FollowThrough, now), pendingTimers := t.pendingTimers + 1), [])
  }

  /** `analyzeSwing`: advance the phase, run its side effects, then the one-time actions. */
  function AnalyzeSwing(t: Tracker, pose: PoseFrame, now: int, variant: Variant): (s: Step)
    ensures Valid(t) ==> Valid(s.tracker)
  {
    if |pose.allPoseLandmarks| == 0 then
      Step(t, if variant == Swingly then [PromptGetInFrame] else [])
    else
      var hand := HandPosition(pose);
      var progress := ProgressSwingPhase(t, hand, HipHeight(pose));
      var effects := PhaseEffects(t.(current := progress.0, restingCounter := progress.1), pose, hand, variant);
      var moved := effects.tracker.(previousHand := hand);
      if moved.current == moved.previous then
        Step(moved, effects.events)
      else
        var actions := TransitionActions(moved, now);
        Step(actions.tracker.(previous := actions.tracker.current), effects.events + actions.events)
  }

  /** A frame that passes the confidence gate and is analysed. */
  predicate Analysed(pose: PoseFrame)
  {
    |pose.allPoseLandmarks| > 0 && InFrame(pose.allPoseLandmarks)
  }

  /** `onSuccess`: ignore an empty pose, reset on a low-confidence one, analyse the rest. */
  function OnSuccess(t: Tracker, pose: PoseFrame, now: int, variant: Variant): (s: Step)
    ensures Valid(t) ==> Valid(s.tracker)
    ensures s.tracker.maxJiggle >= t.maxJiggle && s.tracker.pendingTimers >= t.pendingTimers
  {
    if |pose.allPoseLandmarks| == 0 then Step(t, [])
    else if !InFrame(pose.allPoseLandmarks) then Step(ResetPositions(t), [])
    else AnalyzeSwing(t, pose, now, variant)
  }

  /**
   * The deferred task scheduled on entering FOLLOW_THROUGH: report the swing,
   * then reset. In the older copy `fullSwingData!!` throws when the swing was
   * already discarded, and nothing after it runs.
   */
  function TimerFires(t: Tracker, variant: Variant): (s: Step)
    requires t.pendingTimers > 0
    ensures Valid(t) ==> Valid(s.tracker)
    ensures s.tracker.pendingTimers == t.pendingTimers - 1
    ensures s.tracker.maxJiggle == t.maxJiggle && s.tracker.previous == t.previous
    ensures s.events == [] <==> variant == GolfSwingAnalyzer && t.swing.None?
    ensures s.events != [] ==> s.events == [SwingFinished(t.swing)] && s.tracker.current == NotEngaged && s.tracker.swing.None?
    ensures s.events != [] ==> s.tracker == ResetPositions(t).(pendingTimers := t.pendingTimers - 1)
    ensures s.events == [] ==> s.tracker == t.(pendingTimers := t.pendingTimers - 1)
  {
    var fired := t.(pendingTimers := t.pendingTimers - 1);
    if variant == GolfSwingAnalyzer && t.swing.None? then Step(fired, [])
    else Step(ResetPositions(fired), [SwingFinished(t.swing)])
  }

  /** Feeds a sequence of frames to the classifier, in order. */
  function RunFrames(t: Tracker, inputs: seq<FrameInput>, variant: Variant): Tracker
    decreases |inputs|
  {
    if |inputs| == 0 then t
    else RunFrames(OnSuccess(t, inputs[0].pose, inputs[0].now, variant).tracker, inputs[1..], variant)
  }
}
