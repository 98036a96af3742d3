# Push-up rep counter, modelled in Dafny

This project models the rep-counting core of the ALTR push-up app. Each camera frame yields a list of body landmarks from a pose estimator. `PushupTracker` handles one frame at a time:

- it gates the frame on arm visibility and on a horizontal body posture;
- it measures the elbow angle on each visible side and combines the two;
- it smooths the combined angle exponentially, with factor 0.3;
- it drives a four-state machine (`waiting`, `ready`, `down`, `up`) that counts a rep on every `down` → `up` transition.

It reports through three callbacks: state change, angle update and rep complete. The pure helpers it relies on come from `Utils`:

- landmark visibility;
- the posture heuristic;
- `smooth`;
- the angle fold;
- landmark averaging;
- zero-padded number formatting.

Files:

- `wrappers.dfy`: `Option`, which stands for JavaScript's `null`/`undefined`.
- `utils.dfy` (module `Utils`): the helpers, as functions with lemmas.
- `pushup_tracker.dfy` (module `PushupTracker`) has two layers:
  - A value-level reference definition of one frame. This is `ProcessSpec` and the functions it calls, over the `Session` record of the tracker's four fields. It returns the new session plus the events emitted.
  - Class `Tracker`, the mutable object itself. Its methods update the fields step by step and append to `events`, a log of what the callbacks would have received. Each method is proved to match its reference function.

The central result is an invariant, `Inv`:

- outside `waiting` a smoothed angle is set;
- in `down` the deepest angle is set, below 90, and not above the current smoothed angle.

Every frame preserves `Inv` (`ProcessStep`). Consequences:

- while the tracker stays in `down`, the deepest angle never increases;
- the count grows by exactly the number of reps reported, at most one per frame, and only on `down` → `up`;
- every reported rep is `good`.

The quality branches of `completeRep` (pushup-tracker.js lines 186-187) can never yield `partial` or `shallow`. A rep completes only from `down`, which is entered at an angle below 90, and `trackPushupState` passes `lastElbowAngle < 90` as the verdict (line 170). So `config.partialRepThreshold` (110) is never consulted. A rep whose deepest angle lies between 90 and 110 is not reported as partial: it is not counted at all.

Two further points:

- **Smoothing delays reps.** Fed straight to the transition table, the angles 170, 150, 80, 70, 165 go `ready`, then `down`, and complete one good rep at depth 70 before going `up` (`TableScenario`). Fed through the tracker's smoothing, the smoothed angles are 170, 164, 138.8, 118.16 and 132.212. They never drop below 90, so no rep is counted and the tracker stays `ready` (`SmoothedScenario`).
- **The "both elbow angles missing" exit** (pushup-tracker.js line 62) is modelled as written. It can never be taken: after the visibility gate, at least one arm yields an angle (`VisibleArmYieldsAngle`).

## Model

| member | source | states |
|---|---|---|
| Utils.IsLandmarkVisible | ALTR-app/js/utils.js:38-40 | an absent landmark is never visible; a present one is visible iff its visibility is strictly above the threshold |
| Utils.VisibilityMonotone | ALTR-app/js/utils.js:38-40 | lowering the threshold never hides a visible landmark; a visibility equal to the threshold is not visible (strict comparison) |
| Utils.LandmarkAt | ALTR-app/js/pushup-tracker.js:134-136 | indexing a landmark list; past its end the result is absent, as JavaScript's `undefined` (used by the visibility lemmas) |
| Utils.Smooth | ALTR-app/js/utils.js:68-70 | `current + (target - current) * factor`, factor 0.5 by default; its properties are the `Smooth...` lemmas below |
| Utils.SmoothEndpoints | ALTR-app/js/utils.js:68-70 | factor 1 yields the target, factor 0 the current value |
| Utils.SmoothBetween | ALTR-app/js/utils.js:68-70 | for a factor in [0, 1] the result lies between the current value and the target |
| Utils.SmoothOffset | ALTR-app/js/utils.js:68-70 | the signed offset from the target after one step is (1 - factor) times the offset before |
| Utils.SmoothDistance | ALTR-app/js/utils.js:68-70 | for a factor in [0, 1], the distance to the target is (1 - factor) times the previous distance |
| Utils.SmoothTimesOffset | ALTR-app/js/utils.js:68-70 | after n repeated steps towards a fixed target, the offset is (1 - factor)^n times the initial offset |
| Utils.PowerBound | ALTR-app/js/utils.js:68-70 | (1 - f)^n is non-negative and at most 1 / (1 + n f), the bound that drives convergence |
| Utils.SmoothingConverges | ALTR-app/js/utils.js:68-70 | repeated smoothing towards a constant target converges: the remaining offset is scaled by p with 0 <= p <= 1/(1 + n factor) |
| Utils.IsHorizontalPosition | ALTR-app/js/utils.js:124-143 | false with fewer than 33 landmarks or with any of shoulders 11/12 and hips 23/24 not visible at 0.5; when true, mean shoulder and mean hip heights differ by less than 0.3 |
| Utils.MeanY | ALTR-app/js/utils.js:138-139 | the mean height of two landmarks, used for shoulders and hips (see `HorizontalWhenTorsoVisible`) |
| Utils.HorizontalWhenTorsoVisible | ALTR-app/js/utils.js:137-142 | with 33 landmarks and a visible torso, the check passes iff the mean shoulder/hip height difference is below 0.3 |
| Utils.HorizontalShiftInvariant | ALTR-app/js/utils.js:124-143 | moving every landmark vertically by the same amount does not change the verdict |
| Utils.FoldAngle | ALTR-app/js/utils.js:13-19 | a difference in [0, 360] folds into [0, 180]; values up to 180 are kept, larger ones become their 360-complement |
| Utils.FoldReflection | ALTR-app/js/utils.js:13-19 | a difference d and its reflection 360 - d fold to the same angle |
| Utils.CalculateAngle | ALTR-app/js/utils.js:11-20 | when the bearing function ranges over [-180, 180] degrees, the joint angle lies in [0, 180] |
| Utils.CalculateAngleSymmetric | ALTR-app/js/utils.js:11-20 | the angle at the vertex is the same with the outer points swapped |
| Utils.DepthOrZero | ALTR-app/js/utils.js:51 | `landmark.z || 0`: a missing depth reads as 0 (see `AverageCoord`) |
| Utils.SumLandmarks | ALTR-app/js/utils.js:48-52 | the `reduce` from the origin, adding each landmark in order (bounded by `SumWithinBounds`) |
| Utils.GetAverageLandmark | ALTR-app/js/utils.js:47-59 | there is an average exactly when the list is non-empty (the source divides by zero otherwise) |
| Utils.AverageCoord | ALTR-app/js/utils.js:47-58 | each coordinate of the average is the sum of that coordinate, a missing z read as 0, divided by the count |
| Utils.SumWithinBounds | ALTR-app/js/utils.js:48-52 | when every landmark's coordinate lies in [lo, hi], the sum lies between n copies of lo and n copies of hi |
| Utils.AverageWithinBounds | ALTR-app/js/utils.js:47-58 | when every landmark's coordinate lies in [lo, hi], so does the average's (so copies of one landmark average to it) |
| Utils.NatToString | ALTR-app/js/utils.js:97 | `toString` of a non-negative integer is a non-empty digit string without a leading zero |
| Utils.ParseNatToString | ALTR-app/js/utils.js:97 | reading the decimal string back gives the number |
| Utils.PadStart | ALTR-app/js/utils.js:97 | the result has length max(target, original), ends with the original string, and is filled with the filler before it |
| Utils.FormatNumber | ALTR-app/js/utils.js:96-98 | the decimal string padded with '0' to length max(digits, own length), digits 2 by default, with the original string as suffix |
| Utils.FormatNumberDefaultWidth | ALTR-app/js/utils.js:96-98 | with the default width 2: 7 → "07" and 42 → "42" |
| Utils.FormatNumberRoundTrip | ALTR-app/js/utils.js:96-98 | the padded string is all digits and still reads back as the number |
| PushupTracker.Num | ALTR-app/js/pushup-tracker.js:154-172 | JavaScript's reading of a null angle as 0 in the threshold comparisons (see `TrackTransitions`) |
| PushupTracker.Or | ALTR-app/js/pushup-tracker.js:71 | `left || right` on angles, where both null and 0 are falsy (see `CombineAngles`) |
| PushupTracker.Round | ALTR-app/js/pushup-tracker.js:82 | `Math.round`: the result is within half a unit, x - 0.5 < r <= x + 0.5 |
| PushupTracker.AreKeyLandmarksVisible | ALTR-app/js/pushup-tracker.js:93-115 | true iff the shoulder, elbow and wrist of the left or of the right side are all visible at 0.5 |
| PushupTracker.IsArmVisible | ALTR-app/js/pushup-tracker.js:104-112 | shoulder, elbow and wrist of one side all visible at 0.5 (see `AreKeyLandmarksVisible`) |
| PushupTracker.CalculateElbowAngle | ALTR-app/js/pushup-tracker.js:123-145 | an angle exists iff that arm is fully visible; it lies in [0, 180] under the bearing range |
| PushupTracker.VisibleArmYieldsAngle | ALTR-app/js/pushup-tracker.js:47-64 | the visibility gate passes iff at least one side yields an angle, so the both-missing exit is never taken after it |
| PushupTracker.CombineAngles | ALTR-app/js/pushup-tracker.js:66-72 | the mean when both sides are present; otherwise the right side if the left is missing; a lone left angle unless it is exactly 0 (JavaScript's falsy 0) |
| PushupTracker.CombineAnglesInRange | ALTR-app/js/pushup-tracker.js:66-72 | combining angles in [0, 180] stays in [0, 180] and not below the smaller input |
| PushupTracker.SmoothAngle | ALTR-app/js/pushup-tracker.js:74-79 | the first sample is taken exactly; later ones land between the previous value and the sample, at 0.7 of the previous distance |
| PushupTracker.StatsOf | ALTR-app/js/pushup-tracker.js:221-227 | count and state copied; the angle is null iff the smoothed angle is unset or exactly 0, otherwise within 0.5 of it |
| PushupTracker.UpdateStateSpec | ALTR-app/js/pushup-tracker.js:200-205 | reference definition of `updateState` on values (see `UpdateStateNotifiesOnChange`, `Tracker.UpdateState`) |
| PushupTracker.RepQuality | ALTR-app/js/pushup-tracker.js:186-187 | good when the verdict is good, else partial below 110, else shallow (unreachable, see `ProcessStep`) |
| PushupTracker.CompleteRepSpec | ALTR-app/js/pushup-tracker.js:184-194 | reference definition of `completeRep`: count + 1 and one rep event with the new count, quality and deepest angle |
| PushupTracker.TrackSpec | ALTR-app/js/pushup-tracker.js:151-178 | reference definition of the transition table (see `TrackTransitions`, `Tracker.TrackPushupState`) |
| PushupTracker.AngleStepSpec | ALTR-app/js/pushup-tracker.js:74-85 | reference definition of smoothing, angle report and transition (see `AngleStep`, `Tracker.ApplySample`) |
| PushupTracker.ProcessSpec | ALTR-app/js/pushup-tracker.js:41-86 | reference definition of one `processPose` call (see `ProcessStep`, `Tracker.ProcessPose`) |
| PushupTracker.UpdateStateNotifiesOnChange | ALTR-app/js/pushup-tracker.js:200-205 | the state becomes the new one, and one notification is emitted iff it differed, none otherwise |
| PushupTracker.TrackTransitions | ALTR-app/js/pushup-tracker.js:151-178 | waiting → ready iff angle > 160; ready/up → down iff angle < 90, recording that angle; down → up iff angle > 160 with count + 1; staying in down, a lower angle becomes the deepest angle and otherwise it is kept; no other transitions, smoothed angle untouched; events: none when the state stays, one StateChanged otherwise, preceded on down → up by the rep event with count + 1, its quality and the deepest angle |
| PushupTracker.MissingPoseIgnored | ALTR-app/js/pushup-tracker.js:42 | missing pose data or landmarks change nothing and emit nothing |
| PushupTracker.FailedGateForcesWaiting | ALTR-app/js/pushup-tracker.js:46-56 | a failed visibility or posture gate sets `waiting`, keeps every other field and notifies only on a change |
| PushupTracker.PassingFrameSmoothsAndReports | ALTR-app/js/pushup-tracker.js:58-85 | a frame passing both gates sets the smoothed angle to the combined sample (first time) or its 0.3-smoothing, and first emits the rounded smoothed angle |
| PushupTracker.ProcessStep | ALTR-app/js/pushup-tracker.js:41-86 | one frame preserves `Inv` (in down, the deepest angle is below 90 and not above the smoothed angle); every reported rep is good; count grows by the reps reported, at most 1, exactly on down → up, with an event carrying the new count and the deepest angle; the deepest angle never rises while in down |
| PushupTracker.RunCountsEveryRepOnce | ALTR-app/js/pushup-tracker.js:41-86 | over any sequence of frames: `Inv` holds, every rep is good, the count equals the start plus the reps reported and never decreases |
| PushupTracker.InitialSession | ALTR-app/js/pushup-tracker.js:5-8 | the initial fields satisfy `Inv` and read as zero reps, `waiting`, no angle |
| PushupTracker.TableScenario | ALTR-app/js/pushup-tracker.js:151-194 | the table fed 170, 150, 80, 70, 165 goes ready, down, completes rep 1 as good at 70, then up |
| PushupTracker.HeldAngleSmoothing | ALTR-app/js/pushup-tracker.js:74-79 | holding one angle, a tracker without an angle takes it at once, and one with an angle follows `SmoothTimes` with factor 0.3, so `SmoothingConverges` applies to the tracker |
| PushupTracker.SmoothedScenario | ALTR-app/js/pushup-tracker.js:74-85 | the same samples through smoothing stay `ready` with no rep, smoothed angle 132.212 |
| PushupTracker.Tracker.constructor | ALTR-app/js/pushup-tracker.js:3-8 | zero reps, `waiting`, both angles null, empty log |
| PushupTracker.Tracker.Init | ALTR-app/js/pushup-tracker.js:29-35 | after init the fields are reset and the log is empty, and `Valid` holds |
| PushupTracker.Tracker.Reset | ALTR-app/js/pushup-tracker.js:210-215 | zero reps, `waiting`, both angles null, and no event emitted; a valid tracker stays valid |
| PushupTracker.Tracker.UpdateState | ALTR-app/js/pushup-tracker.js:200-205 | state set; other fields unchanged; one notification iff the state changed |
| PushupTracker.Tracker.CompleteRep | ALTR-app/js/pushup-tracker.js:184-194 | count + 1 and one rep event with the new count, the quality from the good/partial(110)/shallow rule, and the deepest angle |
| PushupTracker.Tracker.TrackPushupState | ALTR-app/js/pushup-tracker.js:151-178 | new fields and events are those of the transition table `TrackSpec` |
| PushupTracker.Tracker.ProcessPose | ALTR-app/js/pushup-tracker.js:41-86 | keeps `Valid`; new fields and events are those of `ProcessSpec`, so `ProcessStep` applies |
| PushupTracker.Tracker.ApplySample | ALTR-app/js/pushup-tracker.js:74-85 | smoothing, angle report and transition match `AngleStepSpec` |
| PushupTracker.Tracker.GetStats | ALTR-app/js/pushup-tracker.js:221-227 | the snapshot is `StatsOf` of the current fields |

## Left out

- `Math.atan2` is a function parameter that returns degrees; the radians-to-degrees scaling is folded into it. The only fact used about it is its range of [-180, 180], and the angle bound is conditional on that range.
- IEEE floating point is not modelled: numbers are exact reals, and NaN and infinities do not arise. In particular, the source's average of an empty list is NaN in every coordinate; the model gives `None`.
- `Math.round` is floor(x + 0.5), which agrees with JavaScript on every real.
- The callbacks are an event log on the tracker. `init` with missing callbacks installs no-op functions, which is the same as registering a fresh, empty log.
- PushupTracker.Tracker.constructor: before `init` the source's callbacks are `null`, so a state change or an angle report throws a TypeError. The model logs the event instead. The app calls `processPose` only after `init` (app.js), so the difference is not observable there.
- Utils.FormatNumber: covers non-negative integers below 10^21 only. Negative and fractional numbers (with a sign or a decimal point in `toString`) are not modelled. Nor are integers of 10^21 and above, which `toString` writes in exponent notation.
- The default arguments of the source are kept: `IsLandmarkVisible`'s threshold 0.5, `Smooth`'s factor 0.5 and `FormatNumber`'s width 2.
- A landmark whose `visibility` is missing is not modelled: visibility is always a number.
- `processPose` is split into `ProcessPose` (gates and angles) and `ApplySample` (smoothing, report, transition). The split is only for proof economy.
- PushupTracker.Tracker.ProcessPose states its effect through `ProcessSpec` only. The count and deepest-angle consequences are in `ProcessStep`, which applies to it directly.
- `distance` (`Math.sqrt`) and `debounce` (timers) in utils.js are not part of this model, because the tracker does not use them.
- Camera, pose detector, app wiring and UI files (camera.js, pose-detector.js, app.js, ui-controller.js) are not part of this model. They are I/O, foreign library calls and presentation.
- `config.horizontalThreshold` (0.25) is kept as a constant but is never read, as in the source: the posture check uses its own 0.3.
