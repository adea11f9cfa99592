/**
 * The workout session: start, finish and reset, the per-exercise totals the
 * counter reports into, the one-second clock, and the screen the two
 * session flags select. `Deliver` and `SwitchExercise` wire the session to
 * the frame adapter the active screen shows.
 */
module App {
  import opened Wrappers
  import opened PoseDetection
  import opened ExerciseDetection
  import opened SessionCounts
  import opened ExerciseCounter

  datatype Screen = StartScreen | SummaryScreen | ActiveScreen

  /** The screen the two flags select: the start screen when neither is set,
      the summary when the workout is complete, the counter otherwise. */
  function ScreenOf(workoutActive: bool, workoutComplete: bool): Screen
  {
    if !workoutActive && !workoutComplete then StartScreen
    else if workoutComplete then SummaryScreen
    else ActiveScreen
  }

  /** Under the session invariant each screen is shown for exactly one
      setting of the flags. */
  lemma ScreenOfValidFlags(workoutActive: bool, workoutComplete: bool)
    requires !(workoutActive && workoutComplete)
    ensures ScreenOf(workoutActive, workoutComplete) == StartScreen <==> !workoutActive && !workoutComplete
    ensures ScreenOf(workoutActive, workoutComplete) == SummaryScreen <==> workoutComplete
    ensures ScreenOf(workoutActive, workoutComplete) == ActiveScreen <==> workoutActive
  {
  }

  class Session {
    var selectedExercise: ExerciseType
    var workoutActive: bool
    var workoutComplete: bool
    var exerciseCounts: Counts
    var workoutTime: int

    /** A workout is never active and complete at once. */
    ghost predicate Valid()
      reads this
    {
      !(workoutActive && workoutComplete) && workoutTime >= 0
    }

    function CurrentScreen(): Screen
      reads this
    {
      ScreenOf(workoutActive, workoutComplete)
    }

    constructor ()
      ensures Valid()
      ensures selectedExercise == Squat && !workoutActive && !workoutComplete
      ensures exerciseCounts == Zero && workoutTime == 0
      ensures CurrentScreen() == StartScreen
    {
      selectedExercise := Squat;
      workoutActive := false;
      workoutComplete := false;
      exerciseCounts := Zero;
      workoutTime := 0;
    }

    /** `handleStartWorkout`. */
    method StartWorkout()
      requires Valid()
      modifies this
      ensures Valid()
      ensures workoutActive && !workoutComplete
      ensures exerciseCounts == Zero && AllZero(exerciseCounts) && workoutTime == 0
      ensures selectedExercise == old(selectedExercise)
      ensures CurrentScreen() == ActiveScreen
    {
      workoutActive := true;
      workoutComplete := false;
      exerciseCounts := Zero;
      workoutTime := 0;
    }

    /** `handleFinishWorkout`. */
    method FinishWorkout()
      requires Valid()
      modifies this
      ensures Valid()
      ensures !workoutActive && workoutComplete
      ensures exerciseCounts == old(exerciseCounts) && workoutTime == old(workoutTime)
      ensures selectedExercise == old(selectedExercise)
      ensures CurrentScreen() == SummaryScreen
    {
      workoutActive := false;
      workoutComplete := true;
    }

    /** `handleExerciseComplete`: the reported count overwrites the entry of
        the selected exercise; the other entries are kept. */
    method HandleExerciseComplete(count: int)
      requires Valid()
      modifies this`exerciseCounts
      ensures Valid()
      ensures exerciseCounts == old(exerciseCounts).With(selectedExercise, count)
      ensures exerciseCounts.Get(selectedExercise) == count
      ensures forall t :: t != selectedExercise ==> exerciseCounts.Get(t) == old(exerciseCounts).Get(t)
    {
      exerciseCounts := exerciseCounts.With(selectedExercise, count);
    }

    /** `handleReset`. */
    method Reset()
      requires Valid()
      modifies this
      ensures Valid()
      ensures !workoutActive && !workoutComplete
      ensures exerciseCounts == Zero && AllZero(exerciseCounts) && workoutTime == 0
      ensures selectedExercise == Squat
      ensures CurrentScreen() == StartScreen
    {
      workoutActive := false;
      workoutComplete := false;
      exerciseCounts := Zero;
      workoutTime := 0;
      selectedExercise := Squat;
    }

    /** One tick of the workout clock. */
    method Tick()
      requires Valid()
      modifies this`workoutTime
      ensures Valid()
      ensures workoutTime == old(workoutTime) + 1
    {
      workoutTime := workoutTime + 1;
    }

    /** `setSelectedExercise`, the selector's setter. */
    method SelectExercise(t: ExerciseType)
      requires Valid()
      modifies this`selectedExercise
      ensures Valid()
      ensures selectedExercise == t
    {
      selectedExercise := t;
    }
  }

  /** A frame on the active screen: the counter processes it, and a count it
      reports is written into the session's entry for the selected exercise. */
  method Deliver(session: Session, counter: Counter, heading: Heading,
                 poseLandmarks: LandmarkList, canvasReady: bool, contextReady: bool)
    requires session.Valid() && counter.Valid()
    requires session.CurrentScreen() == ActiveScreen
    requires counter.exerciseType == session.selectedExercise && counter.reportsReps
    modifies session`exerciseCounts, counter`state, counter`count, counter`feedback, counter`confidence
    ensures session.Valid() && counter.Valid()
    ensures counter.state ==
              if Processes(poseLandmarks, canvasReady, contextReady)
              then Detect(session.selectedExercise, heading, poseLandmarks, old(counter.state))
              else old(counter.state)
    ensures session.exerciseCounts ==
              if counter.state.count != old(counter.state.count)
              then old(session.exerciseCounts).With(session.selectedExercise, counter.state.count)
              else old(session.exerciseCounts)
  {
    var reported := counter.OnResults(heading, poseLandmarks, canvasReady, contextReady);
    if reported.Some? {
      session.HandleExerciseComplete(reported.value);
    }
  }

  /** Selecting another exercise on the active screen: the session and the
      counter's prop change, the counter's state does not. */
  method SwitchExercise(session: Session, counter: Counter, t: ExerciseType)
    requires session.Valid() && counter.Valid()
    modifies session`selectedExercise, counter`exerciseType
    ensures session.Valid() && counter.Valid()
    ensures session.selectedExercise == t && counter.exerciseType == t
    ensures counter.state == old(counter.state)
    ensures session.exerciseCounts == old(session.exerciseCounts)
  {
    session.SelectExercise(t);
    counter.SetExerciseType(t);
  }

  /** One squat rep (100 then 170 degrees), a switch to the bicep curl and a
      single extended-arm frame (160 degrees): the curl counts a rep at once,
      because the squat's "up" is the curl's flexed stage, and its count
      continues from the squat's. The session then records 2 curls after no
      curl at all, while the squat entry keeps 1. */
  lemma SwitchCarriesState()
    ensures var squatted := Classify(SquatProfile, 170.0, Classify(SquatProfile, 100.0, InitialState));
      var curled := Classify(BicepCurlProfile, 160.0, squatted);
      var counts := Zero.With(Squat, squatted.count).With(BicepCurl, curled.count);
      && squatted.count == 1 && squatted.stage == Some(Up)
      && curled.count == 2
      && counts.Get(Squat) == 1 && counts.Get(BicepCurl) == 2
  {
  }

  /** One squat rep, then one push-up (80 then 170 degrees): the push-up's
      count starts from the squat's, so the session records 2 push-ups. */
  lemma SwitchCarriesCount()
    ensures var squatted := Classify(SquatProfile, 170.0, Classify(SquatProfile, 100.0, InitialState));
      var pushed := Classify(PushupProfile, 170.0, Classify(PushupProfile, 80.0, squatted));
      && squatted.count == 1 && pushed.count == 2
      && Zero.With(Squat, squatted.count).With(Pushup, pushed.count).Get(Pushup) == 2
  {
  }
}
