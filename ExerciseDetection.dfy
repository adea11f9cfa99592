/**
 * The per-frame rep-counting state machine: three classifiers that map a
 * joint angle and the previous exercise state to the next one, and the
 * dispatcher that picks one by exercise type.
 *
 * The three classifiers share one shape, captured by `Profile` and the
 * specification function `Classify`: an "extended" zone above one threshold,
 * a "flexed" zone below another, a middle zone between them in which the
 * stage is carried forward, and a rep counted on the step from the flexed
 * stage to the extended one.
 */
module ExerciseDetection {
  import opened Wrappers
  import opened PoseDetection

  datatype ExerciseType = Squat | Pushup | BicepCurl

  datatype Stage = Up | Down

  /** The state threaded from frame to frame; `stage` is `None` before the
      first classified frame. */
  datatype ExerciseState = ExerciseState(count: int, stage: Option<Stage>, feedback: string, confidence: real)

  /** The three landmark indices whose angle at the middle one is measured. */
  datatype Joints = Joints(first: int, vertex: int, last: int)

  /** Right hip, knee and ankle. */
  const SquatJoints := Joints(24, 26, 28)
  /** Right shoulder, elbow and wrist. */
  const ArmJoints := Joints(12, 14, 16)

  /** The thresholds, confidence ramps, stage labels and cue texts of one
      classifier. An angle above `extendedAbove` is the extended posture, one
      below `flexedBelow` the flexed posture; each confidence ramps linearly
      from 0 at its threshold to 1 one ramp width past it. `depthCue` is the
      squat's extra threshold for the "go lower" prompt. */
  datatype Profile = Profile(
    extendedAbove: real, extendedRamp: Ramp, extendedStage: Stage, extendedCue: string,
    flexedBelow: real, flexedRamp: Ramp, flexedCue: string,
    depthCue: Option<real>)

  /** A confidence ramp width: positive. */
  type Ramp = w: real | w > 0.0 witness 1.0

  const RepCue := "Good rep!"
  const DepthCue := "Go lower for full range of motion"

  /** Squat: up above 160, down below 120, rep on down to up. */
  const SquatProfile := Profile(160.0, 20.0, Up, "Stand straight", 120.0, 30.0, "Good depth", Some(90.0))
  /** Push-up: up above 160, down below 90, rep on down to up. */
  const PushupProfile := Profile(160.0, 20.0, Up, "Arms extended", 90.0, 30.0, "Good depth", None)
  /** Bicep curl: down above 150, up below 60, rep on up to down. */
  const BicepCurlProfile := Profile(150.0, 30.0, Down, "Arm extended", 60.0, 30.0, "Good curl", None)

  function Opposite(s: Stage): Stage
  {
    match s
    case Up => Down
    case Down => Up
  }

  function FlexedStage(p: Profile): Stage
  {
    Opposite(p.extendedStage)
  }

  /** The condition the three profiles meet: the flexed threshold is below
      the extended one, so an angle between them is in neither zone. */
  predicate WellFormed(p: Profile)
  {
    p.flexedBelow <= p.extendedAbove
  }

  function ProfileOf(t: ExerciseType): Profile
  {
    match t
    case Squat => SquatProfile
    case Pushup => PushupProfile
    case BicepCurl => BicepCurlProfile
  }

  function JointsOf(t: ExerciseType): Joints
  {
    match t
    case Squat => SquatJoints
    case Pushup => ArmJoints
    case BicepCurl => ArmJoints
  }

  lemma ProfilesWellFormed(t: ExerciseType)
    ensures WellFormed(ProfileOf(t))
  {
  }

  datatype Zone = Extended | Flexed | Middle

  /** The extended test is made first, as in the source. */
  function ZoneOf(p: Profile, angle: real): Zone
  {
    if angle > p.extendedAbove then Extended
    else if angle < p.flexedBelow then Flexed
    else Middle
  }

  /** The stage after this frame: the zone's label, or, in the middle zone,
      the previous stage unchanged. */
  function ResolvedStage(p: Profile, angle: real, prev: Option<Stage>): Option<Stage>
  {
    match ZoneOf(p, angle)
    case Extended => Some(p.extendedStage)
    case Flexed => Some(FlexedStage(p))
    case Middle => prev
  }

  function Min(a: real, b: real): real
  {
    if a <= b then a else b
  }

  function Confidence(p: Profile, angle: real): real
  {
    match ZoneOf(p, angle)
    case Extended => Min(1.0, (angle - p.extendedAbove) / p.extendedRamp)
    case Flexed => Min(1.0, (p.flexedBelow - angle) / p.flexedRamp)
    case Middle => 0.0
  }

  /** A rep is the step from the flexed stage to the extended one. */
  predicate CompletesRep(p: Profile, angle: real, prev: Option<Stage>)
  {
    ResolvedStage(p, angle, prev) == Some(p.extendedStage) && prev == Some(FlexedStage(p))
  }

  /** The squat's prompt applies while in the flexed stage above its depth. */
  predicate NeedsDepth(p: Profile, angle: real, stage: Option<Stage>)
  {
    p.depthCue.Some? && stage == Some(FlexedStage(p)) && angle > p.depthCue.value
  }

  function PostureCue(p: Profile, angle: real): string
  {
    match ZoneOf(p, angle)
    case Extended => p.extendedCue
    case Flexed => p.flexedCue
    case Middle => ""
  }

  /** The feedback the source leaves after its writes in order (posture cue,
      rep cue, depth prompt): the last applicable one wins. */
  function Feedback(p: Profile, angle: real, prev: Option<Stage>): string
  {
    if NeedsDepth(p, angle, ResolvedStage(p, angle, prev)) then DepthCue
    else if CompletesRep(p, angle, prev) then RepCue
    else PostureCue(p, angle)
  }

  /** The state after one frame with joint angle `angle`. */
  function Classify(p: Profile, angle: real, prev: ExerciseState): ExerciseState
  {
    ExerciseState(
      if CompletesRep(p, angle, prev.stage) then prev.count + 1 else prev.count,
      ResolvedStage(p, angle, prev.stage),
      Feedback(p, angle, prev.stage),
      Confidence(p, angle))
  }

  /** The joint angle of a frame. */
  function JointAngle(heading: Heading, landmarks: LandmarkList, j: Joints): (angle: real)
    ensures 0.0 <= angle <= 180.0
  {
    CalculateAngle(heading,
      GetCoordinates(landmarks, j.first), GetCoordinates(landmarks, j.vertex), GetCoordinates(landmarks, j.last))
  }

  /** The state after one frame of exercise `t`. */
  function Detect(t: ExerciseType, heading: Heading, landmarks: LandmarkList, prev: ExerciseState): ExerciseState
  {
    Classify(ProfileOf(t), JointAngle(heading, landmarks, JointsOf(t)), prev)
  }

  // ---------------------------------------------------------------------
  // The classifiers as the source writes them: local variables reassigned
  // in a fixed order.

  method DetectSquat(heading: Heading, landmarks: LandmarkList, prevState: ExerciseState) returns (r: ExerciseState)
    ensures r == Classify(SquatProfile, JointAngle(heading, landmarks, SquatJoints), prevState)
  {
    var hip := GetCoordinates(landmarks, 24);
    var knee := GetCoordinates(landmarks, 26);
    var ankle := GetCoordinates(landmarks, 28);

    var angle := CalculateAngle(heading, hip, knee, ankle);
    var stage := prevState.stage;
    var count := prevState.count;
    var feedback := "";
    var confidence := 0.0;

    if angle > 160.0 {
      stage := Some(Up);
      confidence := Min(1.0, (angle - 160.0) / 20.0);
      feedback := "Stand straight";
    } else if angle < 120.0 {
      stage := Some(Down);
      confidence := Min(1.0, (120.0 - angle) / 30.0);
      feedback := "Good depth";
    }

    if stage == Some(Up) && prevState.stage == Some(Down) {
      count := count + 1;
      feedback := "Good rep!";
    }

    if stage == Some(Down) && angle > 90.0 {
      feedback := "Go lower for full range of motion";
    }

    r := ExerciseState(count, stage, feedback, confidence);
  }

  method DetectPushup(heading: Heading, landmarks: LandmarkList, prevState: ExerciseState) returns (r: ExerciseState)
    ensures r == Classify(PushupProfile, JointAngle(heading, landmarks, ArmJoints), prevState)
  {
    var shoulder := GetCoordinates(landmarks, 12);
    var elbow := GetCoordinates(landmarks, 14);
    var wrist := GetCoordinates(landmarks, 16);

    var angle := CalculateAngle(heading, shoulder, elbow, wrist);
    var stage := prevState.stage;
    var count := prevState.count;
    var feedback := "";
    var confidence := 0.0;

    if angle > 160.0 {
      stage := Some(Up);
      confidence := Min(1.0, (angle - 160.0) / 20.0);
      feedback := "Arms extended";
    } else if angle < 90.0 {
      stage := Some(Down);
      confidence := Min(1.0, (90.0 - angle) / 30.0);
      feedback := "Good depth";
    }

    if stage == Some(Up) && prevState.stage == Some(Down) {
      count := count + 1;
      feedback := "Good rep!";
    }

    r := ExerciseState(count, stage, feedback, confidence);
  }

  method DetectBicepCurl(heading: Heading, landmarks: LandmarkList, prevState: ExerciseState) returns (r: ExerciseState)
    ensures r == Classify(BicepCurlProfile, JointAngle(heading, landmarks, ArmJoints), prevState)
  {
    var shoulder := GetCoordinates(landmarks, 12);
    var elbow := GetCoordinates(landmarks, 14);
    var wrist := GetCoordinates(landmarks, 16);

    var angle := CalculateAngle(heading, shoulder, elbow, wrist);
    var stage := prevState.stage;
    var count := prevState.count;
    var feedback := "";
    var confidence := 0.0;

    if angle > 150.0 {
      stage := Some(Down);
      confidence := Min(1.0, (angle - 150.0) / 30.0);
      feedback := "Arm extended";
    } else if angle < 60.0 {
      stage := Some(Up);
      confidence := Min(1.0, (60.0 - angle) / 30.0);
      feedback := "Good curl";
    }

    if stage == Some(Down) && prevState.stage == Some(Up) {
      count := count + 1;
      feedback := "Good rep!";
    }

    r := ExerciseState(count, stage, feedback, confidence);
  }

  /** `detectExercise`: the matching classifier's result for each tag. */
  method DetectExercise(exerciseType: ExerciseType, heading: Heading, landmarks: LandmarkList, prevState: ExerciseState)
    returns (r: ExerciseState)
    ensures exerciseType == Squat ==> r == Classify(SquatProfile, JointAngle(heading, landmarks, SquatJoints), prevState)
    ensures exerciseType == Pushup ==> r == Classify(PushupProfile, JointAngle(heading, landmarks, ArmJoints), prevState)
    ensures exerciseType == BicepCurl ==> r == Classify(BicepCurlProfile, JointAngle(heading, landmarks, ArmJoints), prevState)
    ensures r == Detect(exerciseType, heading, landmarks, prevState)
  {
    match exerciseType
    case Squat => r := DetectSquat(heading, landmarks, prevState);
    case Pushup => r := DetectPushup(heading, landmarks, prevState);
    case BicepCurl => r := DetectBicepCurl(heading, landmarks, prevState);
  }

  // ---------------------------------------------------------------------
  // Properties of one frame.

  /** Confidence lies in [0, 1] for every angle; it is positive in the two
      classified zones and 0 in the middle zone. */
  lemma ConfidenceBounds(p: Profile, angle: real, prev: ExerciseState)
    ensures 0.0 <= Classify(p, angle, prev).confidence <= 1.0
    ensures ZoneOf(p, angle) != Middle <==> Classify(p, angle, prev).confidence > 0.0
  {
  }

  /** The count either stays or goes up by one; it goes up exactly when the
      frame lands in the extended zone right after the flexed stage, and a
      frame that counts a rep reports "Good rep!". */
  lemma CountStep(p: Profile, angle: real, prev: ExerciseState)
    ensures var r := Classify(p, angle, prev);
      && (r.count == prev.count || r.count == prev.count + 1)
      && (r.count == prev.count + 1 <==> r.stage == Some(p.extendedStage) && prev.stage == Some(FlexedStage(p)))
      && (r.count == prev.count + 1 <==> ZoneOf(p, angle) == Extended && prev.stage == Some(FlexedStage(p)))
      && (r.count == prev.count + 1 ==> r.feedback == RepCue)
  {
  }

  /** In the middle zone the stage is carried forward (possibly `None`), the
      confidence is 0, no rep is counted and, without a depth prompt, the
      feedback is empty. */
  lemma MiddleZoneCarries(p: Profile, angle: real, prev: ExerciseState)
    requires ZoneOf(p, angle) == Middle
    ensures var r := Classify(p, angle, prev);
      && r.stage == prev.stage && r.confidence == 0.0 && r.count == prev.count
      && (p.depthCue.None? ==> r.feedback == "")
  {
  }

  /** The middle zone of a well-formed profile is the closed interval between
      its thresholds. */
  lemma MiddleZoneInterval(p: Profile, angle: real)
    requires WellFormed(p)
    ensures ZoneOf(p, angle) == Middle <==> p.flexedBelow <= angle <= p.extendedAbove
  {
  }

  /** The middle zones of the three classifiers: 120-160 degrees for the
      squat, 90-160 for the push-up and 60-150 for the curl, ends included. */
  lemma ExerciseMiddleZones(t: ExerciseType, angle: real)
    ensures ZoneOf(ProfileOf(t), angle) == Middle <==>
      match t
      case Squat => 120.0 <= angle <= 160.0
      case Pushup => 90.0 <= angle <= 160.0
      case BicepCurl => 60.0 <= angle <= 150.0
  {
    ProfilesWellFormed(t);
    MiddleZoneInterval(ProfileOf(t), angle);
  }

  /** From the initial `None` stage the first frame never counts a rep. */
  lemma FirstFrameNoRep(p: Profile, angle: real, prev: ExerciseState)
    requires prev.stage == None
    ensures Classify(p, angle, prev).count == prev.count
    ensures Classify(p, angle, prev).stage != None <==> ZoneOf(p, angle) != Middle
  {
  }

  /** The squat prompts to go lower whenever it ends in the down stage above
      90 degrees, also when the down stage is carried through the middle
      zone; the prompt never falls on a frame that counts a rep. */
  lemma SquatDepthPrompt(angle: real, prev: ExerciseState)
    ensures var r := Classify(SquatProfile, angle, prev);
      && (r.stage == Some(Down) && angle > 90.0 ==> r.feedback == DepthCue)
      && (r.feedback == DepthCue ==> r.count == prev.count && r.stage == Some(Down))
      && (120.0 <= angle <= 160.0 && prev.stage == Some(Down) ==> r.feedback == DepthCue)
  {
  }

  /** The bicep curl counts on the way back down: 40 then 160 counts, 160 then
      40 does not. */
  lemma CurlCountsOnExtension(prev: ExerciseState)
    ensures Classify(BicepCurlProfile, 160.0, Classify(BicepCurlProfile, 40.0, prev)).count
              == Classify(BicepCurlProfile, 40.0, prev).count + 1
    ensures Classify(BicepCurlProfile, 40.0, Classify(BicepCurlProfile, 160.0, prev)).count
              == Classify(BicepCurlProfile, 160.0, prev).count
  {
  }

  /** When none of the three joints is in the frame, all three read as the
      origin, the angle is 0 and the frame is taken for the fully flexed
      posture, with full confidence. */
  lemma MissingJointsReadAsFlexed(t: ExerciseType, heading: Heading, landmarks: LandmarkList, prev: ExerciseState)
    requires var j := JointsOf(t);
      !HasLandmark(landmarks, j.first) && !HasLandmark(landmarks, j.vertex) && !HasLandmark(landmarks, j.last)
    ensures JointAngle(heading, landmarks, JointsOf(t)) == 0.0
    ensures Detect(t, heading, landmarks, prev).stage == Some(FlexedStage(ProfileOf(t)))
    ensures Detect(t, heading, landmarks, prev).confidence == 1.0
  {
  }

  // ---------------------------------------------------------------------
  // Properties of a run of frames.

  /** The states after each frame of a run of angles: each frame is
      classified against the state the previous frame left. */
  function Run(p: Profile, angles: seq<real>, s: ExerciseState): (states: seq<ExerciseState>)
    ensures |states| == |angles|
    ensures forall i :: 0 <= i < |states| ==>
      states[i] == Classify(p, angles[i], if i == 0 then s else states[i - 1])
    decreases |angles|
  {
    if angles == [] then []
    else
      var next := Classify(p, angles[0], s);
      var rest := Run(p, angles[1..], next);
      assert forall i :: 1 <= i < |angles| ==> ([next] + rest)[i] == rest[i - 1] && angles[i] == angles[1..][i - 1];
      [next] + rest
  }

  /** Squat angles 170, 100, 170 from the initial stage give counts 0, 0, 1
      above the starting count. */
  lemma SquatTrace(s: ExerciseState)
    requires s.stage == None
    ensures var states := Run(SquatProfile, [170.0, 100.0, 170.0], s);
      && states[0].count == s.count && states[1].count == s.count && states[2].count == s.count + 1
  {
  }

  /** Push-up angles 170, 170 count nothing. */
  lemma PushupTrace(s: ExerciseState)
    requires s.stage == None
    ensures var states := Run(PushupProfile, [170.0, 170.0], s);
      && states[0].count == s.count && states[1].count == s.count
  {
  }

  /** Curl angles 160, 40, 160 from the initial stage give counts 0, 0, 1. */
  lemma CurlTrace(s: ExerciseState)
    requires s.stage == None
    ensures var states := Run(BicepCurlProfile, [160.0, 40.0, 160.0], s);
      && states[0].count == s.count && states[1].count == s.count && states[2].count == s.count + 1
  {
  }

  /** The final state of a run. */
  function Last(p: Profile, angles: seq<real>, s: ExerciseState): ExerciseState
  {
    var states := Run(p, angles, s);
    if states == [] then s else states[|states| - 1]
  }

  /** Over a run no rep is counted on two frames in a row: the count grows
      by at most one for every two frames, and by at most half the frames
      when the run starts in the extended stage or with no stage at all. */
  lemma {:induction false} RunCountBounds(p: Profile, angles: seq<real>, s: ExerciseState)
    ensures s.count <= Last(p, angles, s).count
    ensures s.stage != Some(FlexedStage(p)) ==> Last(p, angles, s).count <= s.count + |angles| / 2
    ensures Last(p, angles, s).count <= s.count + (|angles| + 1) / 2
    decreases |angles|
  {
    if angles != [] {
      var next := Classify(p, angles[0], s);
      assert Run(p, angles, s) == [next] + Run(p, angles[1..], next);
      assert Last(p, angles, s) == Last(p, angles[1..], next);
      RunCountBounds(p, angles[1..], next);
      if next.count == s.count + 1 {
        assert next.stage == Some(p.extendedStage) != Some(FlexedStage(p));
      }
    }
  }
}
