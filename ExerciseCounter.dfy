/**
 * The frame adapter: for each frame of landmarks it runs the classifier of
 * the current exercise on the state kept between frames, updates the values
 * on screen and reports a changed, positive count to its caller.
 *
 * There is one state for the adapter's whole lifetime. A change of exercise
 * type restarts the camera but leaves that state alone, so the count and the
 * stage carry over from one exercise type to the next.
 */
module ExerciseCounter {
  import opened Wrappers
  import opened PoseDetection
  import opened ExerciseDetection

  /** `{count: 0, stage: null, feedback: '', confidence: 0}`. */
  const InitialState := ExerciseState(0, None, "", 0.0)

  /** Whether a frame reaches the classifier: it has landmarks and the
      drawing surface and its 2D context exist. */
  predicate Processes(poseLandmarks: LandmarkList, canvasReady: bool, contextReady: bool)
  {
    poseLandmarks.Some? && canvasReady && contextReady
  }

  class Counter {
    /** The `exerciseType` prop. */
    var exerciseType: ExerciseType
    /** Whether an `onExerciseComplete` callback was passed. */
    const reportsReps: bool
    /** `exerciseState.current`, the state threaded between frames. */
    var state: ExerciseState
    /** The count, feedback and confidence on screen. */
    var count: int
    var feedback: string
    var confidence: real

    /** The count is never negative and the count on screen is the state's. */
    ghost predicate Valid()
      reads this
    {
      state.count >= 0 && count == state.count
    }

    constructor (exerciseType: ExerciseType, reportsReps: bool)
      ensures Valid()
      ensures this.exerciseType == exerciseType && this.reportsReps == reportsReps
      ensures state == InitialState && count == 0 && feedback == "" && confidence == 0.0
    {
      this.exerciseType := exerciseType;
      this.reportsReps := reportsReps;
      state := InitialState;
      count := 0;
      feedback := "";
      confidence := 0.0;
    }

    /** A new `exerciseType` prop: the state is not reset. */
    method SetExerciseType(t: ExerciseType)
      requires Valid()
      modifies this`exerciseType
      ensures Valid()
      ensures exerciseType == t && state == old(state) && count == old(count)
    {
      exerciseType := t;
    }

    /** The state-update half of `onResults`. `reported` is the argument
        `onExerciseComplete` is called with, if it is called. */
    method OnResults(heading: Heading, poseLandmarks: LandmarkList, canvasReady: bool, contextReady: bool)
      returns (reported: Option<int>)
      requires Valid()
      modifies this`state, this`count, this`feedback, this`confidence
      ensures Valid()
      ensures !Processes(poseLandmarks, canvasReady, contextReady) ==>
                && state == old(state) && count == old(count)
                && feedback == old(feedback) && confidence == old(confidence)
      ensures Processes(poseLandmarks, canvasReady, contextReady) ==>
                && state == Detect(exerciseType, heading, poseLandmarks, old(state))
                && confidence == state.confidence
                && feedback == (if state.feedback != old(state.feedback) then state.feedback else old(feedback))
      ensures reported == (if Processes(poseLandmarks, canvasReady, contextReady) && reportsReps && state.count != old(state.count)
                           then Some(state.count) else None)
      // The callback fires exactly on the frames that complete a rep, with
      // the count one higher than before.
      ensures reported.Some? <==>
                && Processes(poseLandmarks, canvasReady, contextReady) && reportsReps
                && CompletesRep(ProfileOf(exerciseType), JointAngle(heading, poseLandmarks, JointsOf(exerciseType)), old(state).stage)
      ensures reported.Some? ==> reported.value == old(state.count) + 1
    {
      reported := None;
      if !canvasReady || poseLandmarks.None? {
        return;
      }
      if !contextReady {
        return;
      }

      var newState := DetectExercise(exerciseType, heading, poseLandmarks, state);
      CountStep(ProfileOf(exerciseType), JointAngle(heading, poseLandmarks, JointsOf(exerciseType)), state);

      if newState.count != state.count {
        count := newState.count;
        if reportsReps && newState.count > 0 {
          reported := Some(newState.count);
        }
      }

      if newState.feedback != state.feedback {
        feedback := newState.feedback;
      }

      confidence := newState.confidence;

      state := newState;
    }
  }
}
