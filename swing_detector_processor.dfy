/**
 * The frame processor that runs the swing classifier: a class whose fields
 * are updated frame by frame, proved against the pure model in
 * `SwingClassifier`. The camera-manager callbacks it makes are recorded in the
 * ghost log `events`; the clock is the `now` parameter; the timer that resets
 * the processor after a follow-through is the explicit `TimerFires` step.
 */
module SwingDetectorProcessor {
  import opened Wrappers
  import opened Pose
  import opened Swing
  import opened SwingClassifier

  /** The confidence gate of `onSuccess`: every drawable landmark is likely in the frame. */
  method AllPointsInFrame(landmarks: seq<Landmark>) returns (allPointsInFrame: bool)
    ensures allPointsInFrame == InFrame(landmarks)
  {
    allPointsInFrame := true;
    for i := 0 to |landmarks|
      invariant allPointsInFrame <==>
        forall j :: 0 <= j < i && landmarks[j].landmarkType in DrawablePoints ==>
          landmarks[j].inFrameLikelihood > VisibilityThreshold
    {
      if landmarks[i].landmarkType in DrawablePoints {
        allPointsInFrame := allPointsInFrame && landmarks[i].inFrameLikelihood > VisibilityThreshold;
      }
    }
  }

  /** What the deferred task throws in the older copy when the swing was already discarded. */
  datatype TimerError = NullPointerException

  class SwingDetectorProcessor {
    /** Which copy of the processor this is. */
    const variant: Variant

    var currentSwingPhase: SwingPhase
    var previousSwingPhase: SwingPhase
    var restingCounter: int
    /** The lowest hand height seen while READY; image y grows downward. */
    var lowestHandVal: real
    /** The highest hand height seen during the backswing, as the smallest y. */
    var highestHandVal: real
    var previousHandPosition: Point
    var maxJiggle: real
    var frameJiggle: real
    const changeBuffer: real
    var fullSwingData: FullSwing?

    /** Deferred resets scheduled and not yet run. */
    ghost var pendingTimers: nat
    /** The callbacks made on the camera manager so far, in order. */
    ghost var events: seq<Event>

    ghost function Buffers(): set<object>
      reads this
    {
      if fullSwingData == null then {} else fullSwingData.Buffers()
    }

    /** The fields as a value of the pure model. */
    ghost function State(): Tracker
      reads this, Buffers()
    {
      Tracker(currentSwingPhase, previousSwingPhase, restingCounter, lowestHandVal, highestHandVal,
              previousHandPosition, maxJiggle, frameJiggle,
              if fullSwingData == null then None else Some(fullSwingData.Value()),
              pendingTimers)
    }

    ghost predicate Valid()
      reads this, Buffers()
    {
      && changeBuffer == ChangeBuffer
      && (fullSwingData != null ==> fullSwingData.Valid())
      && SwingClassifier.Valid(State())
    }

    constructor (variant: Variant)
      ensures Valid()
      ensures this.variant == variant && State() == Initial() && events == []
    {
      this.variant := variant;
      currentSwingPhase := NotEngaged;
      previousSwingPhase := NotEngaged;
      restingCounter := RestingFrames;
      lowestHandVal := InitialLowestHandVal;
      highestHandVal := InitialHighestHandVal;
      previousHandPosition := Point(0.0, 0.0);
      maxJiggle := InitialMaxJiggle;
      frameJiggle := 0.0;
      changeBuffer := ChangeBuffer;
      fullSwingData := null;
      pendingTimers := 0;
      events := [];
    }

    /** Handles the pose detected in one camera frame, captured at time `now`. */
    method OnSuccess(pose: PoseFrame, now: int)
      requires Valid()
      modifies this, Buffers()
      ensures Valid()
      ensures State() == SwingClassifier.OnSuccess(old(State()), pose, now, variant).tracker
      ensures events == old(events) + SwingClassifier.OnSuccess(old(State()), pose, now, variant).events
    {
      if |pose.allPoseLandmarks| == 0 {
        return;
      }
      var allPointsInFrame := AllPointsInFrame(pose.allPoseLandmarks);
      if !allPointsInFrame {
        ResetPositions();
        return;
      }
      AnalyzeSwing(pose, now);
    }

    /** The buffers, when held, are three distinct objects. */
    ghost predicate BuffersValid()
      reads this
    {
      fullSwingData != null ==> fullSwingData.Valid()
    }

    method AnalyzeSwing(pose: PoseFrame, now: int)
      requires Valid()
      modifies this, Buffers()
      ensures Valid()
      ensures State() == SwingClassifier.AnalyzeSwing(old(State()), pose, now, variant).tracker
      ensures events == old(events) + SwingClassifier.AnalyzeSwing(old(State()), pose, now, variant).events
    {
      if |pose.allPoseLandmarks| == 0 {
        if variant == Swingly {
          events := events + [PromptGetInFrame];
        }
        return;
      }
      ghost var t := State();
      var hand := AdvancePhase(pose);
      ghost var progress := SwingClassifier.ProgressSwingPhase(t, hand, HipHeight(pose));
      ghost var effects := PhaseEffects(t.(current := progress.0, restingCounter := progress.1), pose, hand, variant);
      ghost var moved := effects.tracker.(previousHand := hand);
      assert State() == moved;

      ghost var spec := SwingClassifier.AnalyzeSwing(t, pose, now, variant);
      if currentSwingPhase == previousSwingPhase {
        assert spec == Step(moved, effects.events);
        return;
      }
      ghost var actions := TransitionActions(moved, now);
      assert spec == Step(actions.tracker.(previous := actions.tracker.current), effects.events + actions.events);
      ApplyTransitionActions(now);
    }

    /**
     * The first half of analysing a non-empty pose: average the wrists and
     * hips, advance the phase, run its per-frame effects and record the hand
     * position. Returns the hand position.
     */
    method AdvancePhase(pose: PoseFrame) returns (hand: Point)
      requires Valid() && |pose.allPoseLandmarks| > 0
      modifies this, Buffers()
      ensures BuffersValid() && fullSwingData == old(fullSwingData)
      ensures hand == HandPosition(pose)
      ensures var t := old(State());
              var progress := SwingClassifier.ProgressSwingPhase(t, hand, HipHeight(pose));
              var effects := PhaseEffects(t.(current := progress.0, restingCounter := progress.1), pose, hand, variant);
              && State() == effects.tracker.(previousHand := hand)
              && events == old(events) + effects.events
      ensures currentSwingPhase != NotEngaged && currentSwingPhase != Ready ==> fullSwingData != null
    {
      var handPositionY := (pose.rightWrist.y + pose.leftWrist.y) / 2.0;
      var handPositionX := (pose.rightWrist.x + pose.leftWrist.x) / 2.0;
      var hipPositionY := (pose.rightHip.y + pose.leftHip.y) / 2.0;
      ghost var t := State();
      hand := Point(handPositionX, handPositionY);
      assert hand == HandPosition(pose) && hipPositionY == HipHeight(pose);
      ghost var progress := SwingClassifier.ProgressSwingPhase(t, hand, hipPositionY);
      ProgressKeepsSwingHeld(t, hand, hipPositionY);

      currentSwingPhase := ProgressSwingPhase(handPositionX, handPositionY, hipPositionY);
      assert State() == t.(current := progress.0, restingCounter := progress.1);

      ApplyPhaseEffects(pose, hand);
      previousHandPosition := hand;
    }

    /** The per-frame side effects of the (already advanced) current phase. */
    method ApplyPhaseEffects(pose: PoseFrame, hand: Point)
      requires BuffersValid()
      requires currentSwingPhase != NotEngaged && currentSwingPhase != Ready ==> fullSwingData != null
      modifies this, Buffers()
      ensures BuffersValid() && fullSwingData == old(fullSwingData)
      ensures State() == PhaseEffects(old(State()), pose, hand, variant).tracker
      ensures events == old(events) + PhaseEffects(old(State()), pose, hand, variant).events
    {
      match currentSwingPhase {
        case Ready =>
          frameJiggle := Abs(previousHandPosition.y - hand.y);
          maxJiggle := Max(frameJiggle, maxJiggle);
          TrackLowPos(hand.y);
          OnPhaseProcessed();
        case BackSwing =>
          TrackHighPos(hand.y);
          fullSwingData.backSwingData.AddPose(pose);
          OnPhaseProcessed();
        case DownSwing =>
          fullSwingData.downSwingPhaseData.AddPose(pose);
          OnPhaseProcessed();
        case FollowThrough =>
          fullSwingData.followThroughPhaseData.AddPose(pose);
          OnPhaseProcessed();
        case NotEngaged =>
      }
    }

    /** The one-time actions run when the current phase differs from the previous one. */
    method ApplyTransitionActions(now: int)
      requires BuffersValid()
      requires currentSwingPhase == BackSwing || currentSwingPhase == DownSwing ==> fullSwingData != null
      modifies this, Buffers()
      ensures BuffersValid()
      ensures var actions := TransitionActions(old(State()), now);
              State() == actions.tracker.(previous := actions.tracker.current)
      ensures events == old(events) + TransitionActions(old(State()), now).events
    {
      match currentSwingPhase {
        case Ready =>
          fullSwingData := new FullSwing();
          events := events + [SwingReady];
        case BackSwing =>
          fullSwingData.downSwingPhaseData.startTime := now;
        case DownSwing =>
          fullSwingData.backSwingData.endTime := now;
          fullSwingData.downSwingPhaseData.startTime := now;
        case FollowThrough =>
          if fullSwingData != null {
            fullSwingData.downSwingPhaseData.endTime := now;
            fullSwingData.followThroughPhaseData.startTime := now;
          }
          // the deferred reset is scheduled
          pendingTimers := pendingTimers + 1;
        case NotEngaged =>
      }
      previousSwingPhase := currentSwingPhase;
    }

    /** The per-frame report, made only by the older copy. */
    method OnPhaseProcessed()
      modifies this`events
      ensures events == old(events) + PhaseProcessedEvents(variant)
    {
      if variant == GolfSwingAnalyzer {
        events := events + [PhaseProcessed];
      }
    }

    /** Tries the four phase tests in order; the READY test updates the resting counter. */
    method ProgressSwingPhase(handPositionX: real, handPositionY: real, hipPositionY: real) returns (phase: SwingPhase)
      requires changeBuffer == ChangeBuffer
      modifies this`restingCounter
      ensures (phase, restingCounter) ==
              SwingClassifier.ProgressSwingPhase(old(State()), Point(handPositionX, handPositionY), hipPositionY)
    {
      var ready := IsSwingReady(handPositionX, handPositionY, hipPositionY);
      if ready {
        phase := Ready;
      } else if IsBackSwingStarted(currentSwingPhase, lowestHandVal, changeBuffer, handPositionY) {
        phase := BackSwing;
      } else if IsDownSwingStarted(currentSwingPhase, highestHandVal, changeBuffer, handPositionY) {
        phase := DownSwing;
      } else if IsFollowThroughStarted(currentSwingPhase, previousHandPosition, handPositionY) {
        phase := FollowThrough;
      } else {
        phase := currentSwingPhase;
      }
    }

    /** Counts resting frames down, or restarts the count; true on the frame that reaches 0. */
    method IsSwingReady(handPositionX: real, handPositionY: real, hipPositionY: real) returns (ready: bool)
      modifies this`restingCounter
      ensures var pre := Resting(currentSwingPhase, previousHandPosition, maxJiggle,
                                 Point(handPositionX, handPositionY), hipPositionY);
              && restingCounter == (if pre then old(restingCounter) - 1 else RestingFrames)
              && ready == (pre && restingCounter == 0)
    {
      var prePhase := Resting(currentSwingPhase, previousHandPosition, maxJiggle,
                              Point(handPositionX, handPositionY), hipPositionY);
      if prePhase {
        restingCounter := restingCounter - 1;
      } else {
        restingCounter := RestingFrames;
      }
      ready := prePhase && restingCounter == 0;
    }

    method TrackLowPos(position: real)
      modifies this`lowestHandVal
      ensures lowestHandVal == SwingClassifier.TrackLowPos(old(lowestHandVal), position)
    {
      if position > lowestHandVal {
        lowestHandVal := position;
      }
    }

    method TrackHighPos(position: real)
      modifies this`highestHandVal
      ensures highestHandVal == SwingClassifier.TrackHighPos(old(highestHandVal), position)
    {
      if position < highestHandVal {
        highestHandVal := position;
      }
    }

    /**
     * The deferred task: hand the swing to the camera manager, then reset. In
     * the older copy a swing that was already discarded makes `!!` throw and
     * nothing is reset.
     */
    method TimerFires() returns (outcome: Outcome<TimerError>)
      requires Valid() && pendingTimers > 0
      modifies this
      ensures Valid()
      ensures outcome.Fail? <==> variant == GolfSwingAnalyzer && old(fullSwingData) == null
      ensures State() == SwingClassifier.TimerFires(old(State()), variant).tracker
      ensures events == old(events) + SwingClassifier.TimerFires(old(State()), variant).events
    {
      pendingTimers := pendingTimers - 1;
      if variant == GolfSwingAnalyzer && fullSwingData == null {
        return Fail(NullPointerException);
      }
      events := events + [SwingFinished(if fullSwingData == null then None else Some(fullSwingData.Value()))];
      ResetPositions();
      outcome := Pass;
    }

    /** Back to the initial tracking values; `previousSwingPhase` and `maxJiggle` are kept. */
    method ResetPositions()
      requires Valid()
      modifies this
      ensures Valid()
      ensures State() == SwingClassifier.ResetPositions(old(State()))
      ensures events == old(events)
    {
      fullSwingData := null;
      lowestHandVal := InitialLowestHandVal;
      highestHandVal := InitialHighestHandVal;
      currentSwingPhase := NotEngaged;
      previousHandPosition := Point(0.0, 0.0);
      restingCounter := RestingFrames;
      frameJiggle := 0.0;
    }
  }
}
