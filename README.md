# AI Fitness Tracker: rep-counting model

This is a Dafny model of the decision logic of a browser app that counts exercise repetitions (squats, push-ups, bicep curls) from body landmarks produced by a pose-estimation model. It covers:

- **PoseDetection** (`src/utils/poseDetection.ts`). The landmark accessor returns the origin for a missing landmark. The joint angle is folded into [0, 180] degrees. The direction of a ray (`Math.atan2(dy, dx) * 180 / Math.PI`) is an abstract `Heading` function whose results lie in [-180, 180].
- **ExerciseDetection** (`src/utils/exerciseDetection.ts`). Three classifiers map a joint angle and the previous `ExerciseState {count, stage, feedback, confidence}` to the next state. They are written as methods that reassign local variables in the source's order. Each is proved equal to `Classify`, a declarative template parameterised by a `Profile` (thresholds, confidence ramps, stage labels, cue texts, and the squat's depth prompt). The dispatcher `DetectExercise` picks one by exercise type.
- **SessionCounts**: the `Record<ExerciseType, number>` of rep totals, with its key order.
- **TimeFormat**: `formatTime`, which `src/App.tsx` and `src/components/WorkoutSummary.tsx` both define identically, so it is defined once here. Its inverse `ParseTime` reads the `m:ss` form back.
- **WorkoutSummary** (`src/components/WorkoutSummary.tsx`): the total reps (a left fold), the `count > 0` breakdown in key order, and the exercise names.
- **ExerciseCounter** (`src/components/ExerciseCounter.tsx`): the frame adapter as a class. It holds the state threaded between frames, the values shown on screen, and the decision when to call `onExerciseComplete`.
- **App** (`src/App.tsx`): the workout session as a class. Its handlers are start, finish, reset, rep report, clock tick and exercise selection. It also holds the screen selected by the two flags and the wiring of session and counter.

Angles, coordinates and confidences are `real`. Counts and seconds are unbounded integers.

**Switching exercises does not reset the counter.** There is one `exerciseState` ref per mounted counter (`src/components/ExerciseCounter.tsx:28-33`). The effect that runs when `exerciseType` changes only re-creates the pose detector and restarts the camera (`:35-73`), and the counter is rendered without a `key` (`src/App.tsx:131-134`). So the count and the stage carry over from one exercise to the next, and an exercise does not keep a count of its own across a switch and back. `handleExerciseComplete` then writes the carried count into the newly selected exercise's entry (`src/App.tsx:56-61`). `App.SwitchCarriesState` proves a concrete case. After one squat the stage is "up", which is the curl's flexed stage. A single extended-arm frame after switching to the curl then counts a rep, and the session records 2 curls after none were done. `App.SwitchCarriesCount` shows the same carry-over for push-ups.

## Model

| member | source | states |
|---|---|---|
| `PoseDetection.GetCoordinates` | src/utils/poseDetection.ts:44-49 | when the list is absent or has no landmark at the index (out of range, negative), the result is the origin `{x: 0, y: 0}`; otherwise it is exactly that landmark's x and y |
| `PoseDetection.GetCoordinatesLocal` | src/utils/poseDetection.ts:46-49 | the accessor depends only on the x and y of the requested landmark: other landmarks, and its depth and visibility, do not change the result |
| `PoseDetection.Fold` | src/utils/poseDetection.ts:34-38 | the folded angle is `|d|` or `360 - |d|`, never above 180, and not negative when the raw difference lies in [-360, 360] |
| `PoseDetection.FoldIdentity` | src/utils/poseDetection.ts:36-38 | folding is the identity on angles already in [0, 180] |
| `PoseDetection.FoldEven` | src/utils/poseDetection.ts:34 | folding ignores the sign of the raw difference |
| `PoseDetection.FoldFullTurn` | src/utils/poseDetection.ts:34-38 | a raw difference d in [0, 360] and d - 360 fold to the same angle |
| `PoseDetection.RawDifference` | src/utils/poseDetection.ts:33 | the difference of two directions, each in [-180, 180], lies in [-360, 360] |
| `PoseDetection.CalculateAngle` | src/utils/poseDetection.ts:28-41 | the angle at the vertex is in [0, 180] degrees for every choice of direction function |
| `PoseDetection.CalculateAngleSymmetric` | src/utils/poseDetection.ts:33-34 | swapping the outer points leaves the angle unchanged |
| `ExerciseDetection.JointAngle` | src/utils/exerciseDetection.ts:17-21 | the angle computed from a frame's three joints is in [0, 180] |
| `ExerciseDetection.DetectSquat` | src/utils/exerciseDetection.ts:13-50 | the squat classifier, written step by step, returns exactly the template's result for the squat's thresholds (up above 160, down below 120), ramps (20, 30), cues and depth prompt at 90, on the hip-knee-ankle angle 24-26-28 |
| `ExerciseDetection.DetectPushup` | src/utils/exerciseDetection.ts:52-84 | the push-up classifier returns exactly the template's result for up above 160, down below 90, ramps 20 and 30, on the shoulder-elbow-wrist angle 12-14-16 |
| `ExerciseDetection.DetectBicepCurl` | src/utils/exerciseDetection.ts:86-119 | the curl classifier returns exactly the template's result for down above 150, up below 60, ramps 30 and 30, on the shoulder-elbow-wrist angle |
| `ExerciseDetection.DetectExercise` | src/utils/exerciseDetection.ts:121-136 | for each of the three tags the result is that tag's classifier's result |
| `ExerciseDetection.Detect` | src/utils/exerciseDetection.ts:121-136 | `detectExercise` as a function: the template with the tag's profile on the tag's joints; `DetectExercise` is proved to return exactly it, and `MissingJointsReadAsFlexed` is stated over it |
| `ExerciseDetection.Classify` | src/utils/exerciseDetection.ts:13-119 | the rule the three classifiers share; `DetectSquat`, `DetectPushup` and `DetectBicepCurl` are proved equal to it, and `ConfidenceBounds`, `CountStep`, `MiddleZoneCarries`, `FirstFrameNoRep` and `RunCountBounds` state its properties for every profile |
| `ExerciseDetection.ProfilesWellFormed` | src/utils/exerciseDetection.ts:28-32 | each classifier's flexed threshold lies below its extended threshold |
| `ExerciseDetection.ConfidenceBounds` | src/utils/exerciseDetection.ts:25-36 | for every real angle the confidence is in [0, 1]; it is positive exactly when the angle is in one of the two classified zones, and 0 in the middle zone |
| `ExerciseDetection.CountStep` | src/utils/exerciseDetection.ts:38-42 | the count stays or rises by exactly one; it rises if and only if the resolved stage is the extended one and the previous stage was the flexed one (down to up for squat and push-up, up to down for the curl), equivalently iff the angle is in the extended zone after the flexed stage; and then the feedback is "Good rep!" |
| `ExerciseDetection.MiddleZoneCarries` | src/utils/exerciseDetection.ts:22-25 | in the middle zone the stage is the previous one (possibly none), the confidence is 0, no rep is counted and, for the push-up and the curl, the feedback is empty |
| `ExerciseDetection.MiddleZoneInterval` | src/utils/exerciseDetection.ts:28-36 | the middle zone is exactly the closed interval between the two thresholds |
| `ExerciseDetection.ExerciseMiddleZones` | src/utils/exerciseDetection.ts:28-106 | no stage is decided, ends included, between 120 and 160 degrees for the squat, 90 and 160 for the push-up and 60 and 150 for the curl |
| `ExerciseDetection.FirstFrameNoRep` | src/utils/exerciseDetection.ts:39 | from the initial stage `null` the first frame never counts a rep, and it sets a stage iff the angle is classified |
| `ExerciseDetection.SquatDepthPrompt` | src/utils/exerciseDetection.ts:39-47 | whenever the squat ends in "down" above 90 degrees the feedback is the go-lower prompt, including a "down" carried through 120-160; the prompt never falls on a frame that counts a rep |
| `ExerciseDetection.CurlCountsOnExtension` | src/utils/exerciseDetection.ts:112-116 | for the curl, 40 then 160 counts a rep and 160 then 40 does not |
| `ExerciseDetection.MissingJointsReadAsFlexed` | src/utils/poseDetection.ts:45 | a frame with none of the three joints reads as angle 0, that is the flexed stage with confidence 1 |
| `ExerciseDetection.Run` | src/components/ExerciseCounter.tsx:88-111 | the counter classifies each frame against the state the previous frame left (the ref it reads and then overwrites), giving one state per frame |
| `ExerciseDetection.SquatTrace` | src/utils/exerciseDetection.ts:28-42 | squat angles 170, 100, 170 from no stage give counts +0, +0, +1 |
| `ExerciseDetection.PushupTrace` | src/utils/exerciseDetection.ts:67-81 | push-up angles 170, 170 count nothing |
| `ExerciseDetection.CurlTrace` | src/utils/exerciseDetection.ts:102-116 | curl angles 160, 40, 160 from no stage give counts +0, +0, +1 |
| `ExerciseDetection.RunCountBounds` | src/utils/exerciseDetection.ts:38-42 | over any run the count never decreases and no two consecutive frames both count: at most one rep per two frames, at most half the frames when the run does not start in the flexed stage |
| `SessionCounts.Rank` | src/App.tsx:12-16 | each exercise type has its position in the record's key order squat, pushup, bicepCurl |
| `SessionCounts.KeyOrderComplete` | src/App.tsx:12-16 | the key order lists every exercise type |
| `SessionCounts.Counts.With` | src/App.tsx:57-60 | `{...prev, [t]: n}` has entry t equal to n and every other entry unchanged |
| `SessionCounts.Counts.Values` | src/components/WorkoutSummary.tsx:23 | `Object.values` lists the three entries in key order |
| `TimeFormat.DecimalString` | src/App.tsx:78 | `toString` of a whole number is a non-empty digit string without a leading zero; it has one digit iff the number is below 10, at most two below 100 |
| `TimeFormat.ValueOfDecimalString` | src/App.tsx:78 | reading a numeral back gives the number |
| `TimeFormat.DecimalStringOfValue` | src/App.tsx:78 | every canonical numeral is the `toString` of its value |
| `TimeFormat.PadStart` | src/App.tsx:78 | `padStart` with a one-character filler; its length, kept suffix and front fill are stated by `PadStartShape` |
| `TimeFormat.PadStartShape` | src/App.tsx:78 | `padStart` yields the width or the original length, whichever is larger, ends with the original string and is filled in front |
| `TimeFormat.FieldDigits` | src/App.tsx:77-78 | the seconds field of a remainder below 60 is its tens digit then its units digit, so a single-digit remainder gets a leading '0' |
| `TimeFormat.TwoDigitSeconds` | src/App.tsx:77-78 | the seconds field of any remainder below 60 is exactly two digits whose value is the remainder |
| `TimeFormat.TwoDigitField` | src/App.tsx:77-78 | every two-digit field below 60 is the seconds field of its value |
| `TimeFormat.FormatTime` | src/App.tsx:75-79 | `formatTime` (defined identically at src/components/WorkoutSummary.tsx:16-20): minutes, a colon and the seconds field; `FormatTimeRoundTrip` and `ParseTimeFormats` make it a bijection from whole seconds onto the `m:ss` strings |
| `TimeFormat.FormatTimeRoundTrip` | src/components/WorkoutSummary.tsx:16-20 | reading the formatted time back gives the input: minutes times 60 plus the two-digit seconds field recombine to the seconds |
| `TimeFormat.ParseTimeFormats` | src/App.tsx:75-79 | every `m:ss` string (canonical minutes, two-digit seconds below 60) is the formatting of the seconds it denotes, so formatting is a bijection onto that form |
| `WorkoutSummary.Reduce` | src/components/WorkoutSummary.tsx:23 | `reduce((sum, count) => sum + count, acc)`, a left fold; `ReduceIsSum` equates it with the sum |
| `WorkoutSummary.TotalReps` | src/components/WorkoutSummary.tsx:22-24 | `getTotalReps`; `TotalRepsIsSum` states it is the sum of the three counts |
| `WorkoutSummary.ReduceIsSum` | src/components/WorkoutSummary.tsx:23 | the `reduce` left fold from an accumulator equals the accumulator plus the sum |
| `WorkoutSummary.TotalRepsIsSum` | src/components/WorkoutSummary.tsx:22-24 | the total reps are squat + pushup + bicepCurl, and not negative when no count is |
| `WorkoutSummary.Positive` | src/components/WorkoutSummary.tsx:71-72 | the filter keeps exactly the keys with a positive count, and keeps their order |
| `WorkoutSummary.Breakdown` | src/components/WorkoutSummary.tsx:71-72 | the breakdown lists exactly the exercise types whose count is above 0, in key order |
| `WorkoutSummary.ExerciseName` | src/components/WorkoutSummary.tsx:37-46 | `getExerciseName`: "Squats", "Push-ups", "Bicep Curls"; `ExerciseNameInjective` states that no two exercises share a name |
| `WorkoutSummary.ExerciseNameInjective` | src/components/WorkoutSummary.tsx:37-46 | the three names "Squats", "Push-ups", "Bicep Curls" are pairwise different |
| `ExerciseCounter.Counter.constructor` | src/components/ExerciseCounter.tsx:28-33 | the counter starts with count 0, no stage, empty feedback and confidence 0 |
| `ExerciseCounter.Counter.SetExerciseType` | src/components/ExerciseCounter.tsx:35-73 | a new exercise type leaves the threaded state and the shown count unchanged |
| `ExerciseCounter.Counter.OnResults` | src/components/ExerciseCounter.tsx:75-111 | without landmarks, canvas or context nothing changes and nothing is reported; otherwise the state becomes the classifier's result and the confidence shown is the new one. The feedback shown changes only when the state's feedback changes. The callback fires iff the count changed, which is exactly on a rep, and it fires with the old count + 1 |
| `App.ScreenOf` | src/App.tsx:92-111 | the screen the two flags select: the start screen when neither is set, else the summary when the workout is complete, else the active screen; `ScreenOfValidFlags` pairs each screen with one flag setting |
| `App.ScreenOfValidFlags` | src/App.tsx:92-111 | under the session invariant the start screen, the summary and the active screen each correspond to exactly one setting of the two flags |
| `App.Session.constructor` | src/App.tsx:9-17 | a session starts on the start screen with squat selected, no flags, zero counts and zero time |
| `App.Session.StartWorkout` | src/App.tsx:36-45 | active, not complete, all counts and the time zero, selection untouched, active screen shown |
| `App.Session.FinishWorkout` | src/App.tsx:47-54 | not active, complete, counts, time and selection unchanged, summary shown |
| `App.Session.HandleExerciseComplete` | src/App.tsx:56-61 | the reported count overwrites (not adds to) the selected exercise's entry; the other entries are unchanged |
| `App.Session.Reset` | src/App.tsx:63-73 | both flags cleared, counts and time zero, squat selected, start screen shown |
| `App.Session.Tick` | src/App.tsx:23-25 | the clock advances by exactly one second |
| `App.Session.SelectExercise` | src/App.tsx:126-129 | the selection becomes the chosen type |
| `App.Deliver` | src/App.tsx:131-134 | a frame updates the counter's state by the classifier of the selected exercise; the session entry of that exercise becomes the new count exactly when the count changed |
| `App.SwitchExercise` | src/App.tsx:126-134 | switching the exercise changes the selection and the counter's type, and keeps the counter's state and the session counts |
| `App.SwitchCarriesState` | src/components/ExerciseCounter.tsx:28-33 | after one squat rep, one extended-arm curl frame counts a rep at once and the session records 2 curls while squats keep 1 |
| `App.SwitchCarriesCount` | src/App.tsx:56-61 | after one squat rep, one push-up is recorded as 2 push-ups |

## Left out

- Setting up the pose model (`setupPoseDetection`), the webcam and the `Camera` frame loop: these are calls into foreign libraries and asynchronous I/O. Frames enter the model as calls to `Counter.OnResults`.
- `Math.atan2`, `Math.PI` and the conversion from radians to degrees: floating-point trigonometry. The direction of a ray is the abstract `Heading` parameter with results in [-180, 180]. Degree conversion is linear, so the difference of two headings is the source's raw difference in degrees.
- Floating-point rounding, `NaN` and infinities: all arithmetic is on exact reals and integers.
- The `default` branch of `detectExercise`, which returns `prevState` unchanged: `ExerciseType` is a closed datatype here, so that branch is unreachable.
- `getExerciseName` in `src/components/ExerciseCounter.tsx:178-189` and the inline names at `src/App.tsx:143`: the same mapping as `WorkoutSummary.ExerciseName`. The counter's extra `default` ('Exercise') is unreachable for the same reason.
- Canvas drawing of landmarks and connections, the icons and all JSX layout: presentation only.
- `src/components/ExerciseSelector.tsx`: a list of buttons that call the selection setter, which is modelled as `Session.SelectExercise`.
- The interval handle and the effect lifecycle of the clock (`src/App.tsx:18-34`, `:50-53`). Only the tick is modelled. When ticks occur is host scheduling and is not modelled.
- The camera error message (`src/components/ExerciseCounter.tsx:58-60`), which writes the shown feedback outside `onResults`.
- TimeFormat.FormatTime: takes a whole, non-negative number of seconds. The only argument the source passes is the clock, which starts at 0 and rises by 1. Negative or fractional inputs, and the exponent form `toString` uses from 10^21 up, are not modelled.
- React's render scheduling: each handler's updates are applied at once, in order. Batching is not modelled. The counter exists only while the active screen is shown, and a new workout mounts a new one.
