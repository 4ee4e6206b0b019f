/**
 * Properties of the swing-phase classifier, proved on the pure model in
 * `SwingClassifier`.
 */
module SwingClassifierProofs {
  import opened Wrappers
  import opened Pose
  import opened Swing
  import opened SwingClassifier

  /** A pose with no landmarks changes nothing and makes no callback. */
  lemma EmptyFrameIsIgnored(t: Tracker, pose: PoseFrame, now: int, variant: Variant)
    requires |pose.allPoseLandmarks| == 0
    ensures OnSuccess(t, pose, now, variant) == Step(t, [])
  {
  }

  /**
   * One drawable landmark with likelihood at most 0.5 is enough to reset the
   * tracker and skip analysis.
   */
  lemma LowConfidenceFrameResets(t: Tracker, pose: PoseFrame, now: int, variant: Variant, i: int)
    requires 0 <= i < |pose.allPoseLandmarks|
    requires pose.allPoseLandmarks[i].landmarkType in DrawablePoints
    requires pose.allPoseLandmarks[i].inFrameLikelihood <= VisibilityThreshold
    ensures OnSuccess(t, pose, now, variant) == Step(ResetPositions(t), [])
  {
  }

  /** Landmarks outside the drawable set never affect the confidence gate. */
  lemma {:induction false} OtherLandmarksIgnored(landmarks: seq<Landmark>, extra: seq<Landmark>)
    requires forall i :: 0 <= i < |extra| ==> extra[i].landmarkType !in DrawablePoints
    ensures InFrame(landmarks + extra) == InFrame(landmarks)
  {
    var all := landmarks + extra;
    if InFrame(landmarks) {
      forall i | 0 <= i < |all| && all[i].landmarkType in DrawablePoints
        ensures all[i].inFrameLikelihood > VisibilityThreshold
      {
        if i < |landmarks| {
          assert all[i] == landmarks[i];
        }
      }
    } else {
      var i :| 0 <= i < |landmarks| && landmarks[i].landmarkType in DrawablePoints
                && landmarks[i].inFrameLikelihood <= VisibilityThreshold;
      assert all[i] == landmarks[i];
    }
  }

  /**
   * On an analysed frame the hand position is recorded, READY raises
   * `lowestHandVal` and `maxJiggle`, BACK_SWING lowers `highestHandVal`, and
   * no other phase touches them.
   */
  lemma AnalysedFrameTracking(t: Tracker, pose: PoseFrame, now: int, variant: Variant)
    requires Valid(t) && Analysed(pose)
    ensures var r := OnSuccess(t, pose, now, variant).tracker;
            var hand := HandPosition(pose);
            && r.previousHand == hand
            && r.lowestHandVal == (if r.current == Ready then TrackLowPos(t.lowestHandVal, hand.y) else t.lowestHandVal)
            && r.highestHandVal == (if r.current == BackSwing then TrackHighPos(t.highestHandVal, hand.y) else t.highestHandVal)
            && r.maxJiggle == (if r.current == Ready then Max(Abs(t.previousHand.y - hand.y), t.maxJiggle) else t.maxJiggle)
            && r.lowestHandVal >= t.lowestHandVal
            && r.highestHandVal <= t.highestHandVal
  {
  }

  /**
   * On an analysed frame the pose is appended to the buffer of the phase the
   * frame ends in, and to no other buffer; READY and NOT_ENGAGED capture nothing.
   */
  lemma AnalysedFrameCapture(t: Tracker, pose: PoseFrame, now: int, variant: Variant)
    requires Valid(t) && Analysed(pose)
    ensures var r := OnSuccess(t, pose, now, variant).tracker;
            var p := SwingPosition(pose);
            && (r.current == NotEngaged ==> r.swing.None?)
            && (r.current == Ready ==> r.swing == Some(EmptySwing))
            && (r.current == BackSwing ==>
                  && t.swing.Some? && r.swing.Some?
                  && r.swing.value.backSwing.poses == t.swing.value.backSwing.poses + [p]
                  && r.swing.value.downSwing.poses == t.swing.value.downSwing.poses
                  && r.swing.value.followThrough.poses == t.swing.value.followThrough.poses)
            && (r.current == DownSwing ==>
                  && t.swing.Some? && r.swing.Some?
                  && r.swing.value.backSwing.poses == t.swing.value.backSwing.poses
                  && r.swing.value.downSwing.poses == t.swing.value.downSwing.poses + [p]
                  && r.swing.value.followThrough.poses == t.swing.value.followThrough.poses)
            && (r.current == FollowThrough ==>
                  && t.swing.Some? && r.swing.Some?
                  && r.swing.value.backSwing.poses == t.swing.value.backSwing.poses
                  && r.swing.value.downSwing.poses == t.swing.value.downSwing.poses
                  && r.swing.value.followThrough.poses == t.swing.value.followThrough.poses + [p])
  {
  }

  /** The six time stamps of a swing, in buffer order. */
  function Times(v: FullSwingValue): seq<int>
  {
    [v.backSwing.startTime, v.backSwing.endTime,
     v.downSwing.startTime, v.downSwing.endTime,
     v.followThrough.startTime, v.followThrough.endTime]
  }

  /**
   * The one-time actions run exactly when the phase changes: entering READY
   * starts a fresh swing, entering BACK_SWING stamps the downswing start,
   * entering DOWN_SWING stamps the backswing end and the downswing start,
   * entering FOLLOW_THROUGH stamps the downswing end and the follow-through
   * start and schedules the deferred reset. The backswing start is never
   * stamped.
   */
  lemma PhaseChangeActions(t: Tracker, pose: PoseFrame, now: int, variant: Variant)
    requires Valid(t) && Analysed(pose)
    ensures var r := OnSuccess(t, pose, now, variant).tracker;
            && r.previous == r.current
            && (r.current == t.current ==>
                  r.pendingTimers == t.pendingTimers && (r.swing.Some? ==> Times(r.swing.value) == Times(t.swing.value)))
            && (r.swing.Some? ==> r.swing.value.backSwing.startTime == 0)
            && (r.current == BackSwing && t.current != BackSwing ==>
                  r.swing.value.downSwing.startTime == now && r.pendingTimers == t.pendingTimers)
            && (r.current == DownSwing && t.current != DownSwing ==>
                  r.swing.value.backSwing.endTime == now && r.swing.value.downSwing.startTime == now
                  && r.pendingTimers == t.pendingTimers)
            && (r.current == FollowThrough && t.current != FollowThrough ==>
                  r.swing.value.downSwing.endTime == now && r.swing.value.followThrough.startTime == now
                  && r.pendingTimers == t.pendingTimers + 1)
  {
  }

  /**
   * The swing handed over when the deferred task runs has never had its
   * backswing start or its follow-through end stamped: both are still 0.
   */
  lemma FinishedSwingLacksOuterStamps(t: Tracker, variant: Variant)
    requires Valid(t) && t.pendingTimers > 0 && t.swing.Some?
    ensures TimerFires(t, variant).events == [SwingFinished(t.swing)]
    ensures t.swing.value.backSwing.startTime == 0 && t.swing.value.followThrough.endTime == 0
  {
  }

  /**
   * The callbacks of an analysed frame: the older copy reports the frame once
   * whenever it ends in an engaged phase, then "swing ready" is signalled when
   * READY is entered.
   */
  lemma AnalysedFrameEvents(t: Tracker, pose: PoseFrame, now: int, variant: Variant)
    requires Valid(t) && Analysed(pose)
    ensures var s := OnSuccess(t, pose, now, variant);
            s.events ==
              (if s.tracker.current != NotEngaged then PhaseProcessedEvents(variant) else [])
              + (if s.tracker.current == Ready && t.current != Ready then [SwingReady] else [])
  {
  }

  /**
   * Every frame of `inputs` is analysed and is a resting frame for the state
   * the classifier is in when that frame arrives.
   */
  ghost predicate RestingRun(t: Tracker, inputs: seq<FrameInput>, variant: Variant)
    decreases |inputs|
  {
    |inputs| == 0 ||
    (&& Analysed(inputs[0].pose)
     && Resting(t.current, t.previousHand, t.maxJiggle, HandPosition(inputs[0].pose), HipHeight(inputs[0].pose))
     && RestingRun(OnSuccess(t, inputs[0].pose, inputs[0].now, variant).tracker, inputs[1..], variant))
  }

  /**
   * The resting counter debounces READY: each resting frame counts it down by
   * one, the phase stays NOT_ENGAGED until the counter reaches 0, and READY is
   * entered on exactly that frame. A run can therefore not be longer than the
   * counter.
   */
  lemma {:induction false} RestingRunCountsDown(t: Tracker, inputs: seq<FrameInput>, variant: Variant)
    requires Valid(t) && t.current == NotEngaged
    requires RestingRun(t, inputs, variant)
    ensures |inputs| <= t.restingCounter
    ensures var r := RunFrames(t, inputs, variant);
            && r.restingCounter == t.restingCounter - |inputs|
            && r.current == (if |inputs| == t.restingCounter then Ready else NotEngaged)
    decreases |inputs|
  {
    if |inputs| > 0 {
      var pose := inputs[0].pose;
      var next := OnSuccess(t, pose, inputs[0].now, variant).tracker;
      var progress := ProgressSwingPhase(t, HandPosition(pose), HipHeight(pose));
      assert progress.1 == t.restingCounter - 1;
      assert next.restingCounter == t.restingCounter - 1;
      if t.restingCounter == 1 {
        assert next.current == Ready;
        assert RunFrames(t, inputs, variant) == next;
      } else {
        assert next.current == NotEngaged;
        RestingRunCountsDown(next, inputs[1..], variant);
      }
    }
  }

  /** A run of ten resting frames starting from a fresh or reset tracker ends in READY, and no shorter run does. */
  lemma ReadyOnTenthRestingFrame(t: Tracker, inputs: seq<FrameInput>, variant: Variant)
    requires Valid(t) && t.current == NotEngaged && t.restingCounter == RestingFrames
    requires RestingRun(t, inputs, variant)
    ensures |inputs| <= 10
    ensures RunFrames(t, inputs, variant).current == Ready <==> |inputs| == 10
  {
    RestingRunCountsDown(t, inputs, variant);
  }

  /** An analysed frame that is not a resting frame, in NOT_ENGAGED, restarts the count from 10. */
  lemma DisqualifyingFrameRestartsCount(t: Tracker, pose: PoseFrame, now: int, variant: Variant)
    requires Valid(t) && t.current == NotEngaged && Analysed(pose)
    requires !Resting(t.current, t.previousHand, t.maxJiggle, HandPosition(pose), HipHeight(pose))
    ensures var r := OnSuccess(t, pose, now, variant).tracker;
            r.current == NotEngaged && r.restingCounter == RestingFrames
  {
  }

  /**
   * Nine resting frames, one disqualifying frame, then more resting frames:
   * READY is not reached before the second run, and the second run needs all
   * ten frames again; no progress from the first run is kept.
   */
  lemma DebounceKeepsNoPartialProgress(
    t: Tracker, first: seq<FrameInput>, breaker: FrameInput, second: seq<FrameInput>, variant: Variant)
    requires Valid(t) && t.current == NotEngaged && t.restingCounter == RestingFrames
    requires RestingRun(t, first, variant) && |first| == 9
    requires var mid := RunFrames(t, first, variant);
             && Analysed(breaker.pose)
             && !Resting(mid.current, mid.previousHand, mid.maxJiggle, HandPosition(breaker.pose), HipHeight(breaker.pose))
             && RestingRun(OnSuccess(mid, breaker.pose, breaker.now, variant).tracker, second, variant)
    ensures var mid := RunFrames(t, first, variant);
            var restart := OnSuccess(mid, breaker.pose, breaker.now, variant).tracker;
            && mid.current == NotEngaged
            && restart.current == NotEngaged
            && |second| <= 10
            && (RunFrames(restart, second, variant).current == Ready <==> |second| == 10)
  {
    var mid := RunFrames(t, first, variant);
    RestingRunCountsDown(t, first, variant);
    RunFramesValid(t, first, variant);
    var restart := OnSuccess(mid, breaker.pose, breaker.now, variant).tracker;
    DisqualifyingFrameRestartsCount(mid, breaker.pose, breaker.now, variant);
    RestingRunCountsDown(restart, second, variant);
  }

  /** Every reachable tracker satisfies the invariant. */
  lemma {:induction false} RunFramesValid(t: Tracker, inputs: seq<FrameInput>, variant: Variant)
    requires Valid(t)
    ensures Valid(RunFrames(t, inputs, variant))
    decreases |inputs|
  {
    if |inputs| > 0 {
      RunFramesValid(OnSuccess(t, inputs[0].pose, inputs[0].now, variant).tracker, inputs[1..], variant);
    }
  }

  /** Every frame passes the confidence gate. */
  predicate AllAnalysed(inputs: seq<FrameInput>)
  {
    forall i :: 0 <= i < |inputs| ==> Analysed(inputs[i].pose)
  }

  /**
   * Between resets the phase only moves forward, one step per frame at most,
   * `lowestHandVal` never decreases and `highestHandVal` never increases.
   */
  lemma {:induction false} RunWithoutResetIsMonotone(t: Tracker, inputs: seq<FrameInput>, variant: Variant)
    requires Valid(t) && AllAnalysed(inputs)
    ensures var r := RunFrames(t, inputs, variant);
            && Ordinal(t.current) <= Ordinal(r.current) <= Ordinal(t.current) + |inputs|
            && r.lowestHandVal >= t.lowestHandVal
            && r.highestHandVal <= t.highestHandVal
            && r.maxJiggle >= t.maxJiggle
    decreases |inputs|
  {
    if |inputs| > 0 {
      var next := OnSuccess(t, inputs[0].pose, inputs[0].now, variant).tracker;
      AnalysedFrameTracking(t, inputs[0].pose, inputs[0].now, variant);
      assert AllAnalysed(inputs[1..]) by {
        forall i | 0 <= i < |inputs[1..]| ensures Analysed(inputs[1..][i].pose) {
          assert inputs[1..][i] == inputs[i + 1];
        }
      }
      RunWithoutResetIsMonotone(next, inputs[1..], variant);
    }
  }
}
