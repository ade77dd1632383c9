# Avatar controllers and study flow, modelled in Dafny

This project models the core of a browser application in which a 3D avatar
lip-syncs while speech plays and waves its arms in a loop, and in which a
study mode times the user on each problem, personalised from an onboarding
calculation quiz.

The model has five parts, each a module beside the source file it models:

- `Avatar` (`avatar_controller.dfy`): the blend-shape and lip-sync controller.
  It collects the meshes that carry morph targets in traversal order. It
  writes a named channel on every mesh that defines it, toggles talking, and
  closes the mouth when talking stops. Each frame while talking it writes the
  oscillator-driven `mouthOpen` value. Meshes are objects (`Scene.Node`) whose
  influence arrays are updated in place.
- `Gesture` (`gesture_controller.dfy`): the bone registry, a name → bone
  dictionary built by walking the scene, where the last bone of a name wins.
  When both arms are present it builds the six-track `waving-loop` clip and
  plays it. The track table is data, and its shape is proved: increasing key
  times, mirrored arms, closed swing, latest key at 4 s, six distinct targets.
- `StudyMode` (`study_mode_controller.dfy`): the IDLE / STUDYING /
  INTERVENING state machine. The host's timers are explicit: `pending` holds
  the timers scheduled and not yet fired or cleared, and `Fire` is the host
  running one. The invariant `Valid` says that only the timer `timerId` names
  can fire, and only while STUDYING. `GetState` reads the state.
- `Onboarding` (`onboarding_controller.dfy`) and `NumberText`
  (`number_text.dfy`): the five-problem addition quiz. It covers problem
  generation from random draws, the answer check (blank or non-numeric input
  is rejected without any change) and the recorded times. While a problem is
  showing, `|results| == currentProblemIndex`, and the average is reported at
  the end. `NumberText` gives the JavaScript text built-ins the check relies
  on: `trim`, `isNaN` (a scanner for the `StringNumericLiteral` grammar that
  `Number` accepts) and `parseInt(..., 10)`.
- `UserProfile` (`user_profile_manager.dfy`): the stored profile and its
  storage. Loading falls back to a default, saving writes one key, and
  completing onboarding sets both fields and saves. `LoadProfile`,
  `IsOnboardingComplete` and `GetAverageCalculationTime` are read-only
  functions. `StudyMode` reads the average through them.

`Scene` (`scene.dfy`) holds the scene-graph node shared by the first two
parts. `Wrappers` (`wrappers.dfy`) holds `Option`. A scene traversal is the
sequence of nodes in the order `traverse` visits them.

## Model

| member | source | states |
|---|---|---|
| `Avatar.AvatarController.constructor` | js/controllers/AvatarController.js:5-23 | The controller starts not talking. It collects exactly `MorphMeshes(traversal)`, the meshes with morph targets in visit order. It builds a gesture controller whose registry is the scene's bone registry, and which plays the waving clip exactly when both arms are registered. |
| `Avatar.MorphMeshesMembers` | js/controllers/AvatarController.js:18-22 | A node is collected iff it was visited and is a mesh with a morph-target influence array. |
| `Avatar.MorphMeshesAppend` | js/controllers/AvatarController.js:18-22 | Collection keeps traversal order: collecting over a walk split in two gives the first part's meshes followed by the second part's. |
| `Avatar.SetChannel` | js/controllers/AvatarController.js:36-40 | A write to one mesh: the slot the dictionary gives for the channel takes the value, and every other slot keeps its value. A mesh without the channel is unchanged. The length is kept. |
| `Avatar.AvatarController.SetExpression` | js/controllers/AvatarController.js:35-42 | Every collected mesh's influences become `SetChannel` of its old influences, so meshes lacking the channel and all other slots are untouched. No array outside the collected meshes is modified. |
| `Avatar.SetChannelIdempotent` | js/controllers/AvatarController.js:35-41 | Two identical channel writes leave the same influences as one. |
| `Avatar.SetChannelReadsBack` | js/controllers/AvatarController.js:37-39 | After a write, the channel reads the written value whatever it held before. |
| `Avatar.AvatarController.StartTalking` | js/controllers/AvatarController.js:25-27 | Talking becomes true and no influence value changes. |
| `Avatar.AvatarController.StopTalking` | js/controllers/AvatarController.js:29-33 | Talking becomes false. On every mesh that defines `mouthOpen` that slot is exactly 0 on return, whatever its prior value. All else stays as it was. |
| `Avatar.AvatarController.Update` | js/controllers/AvatarController.js:50-56 | While talking, `mouthOpen` takes `(s + 1) / 2 * 1.2` for oscillator sample `s` on every mesh that has it. When not talking, no influence is written. |
| `Avatar.MouthOpenInRange` | js/controllers/AvatarController.js:52-55 | For every sample in [-1, 1] the lip-sync value lies in [0, 1.2]. |
| `Avatar.MouthOpenCanExceedOne` | js/controllers/AvatarController.js:53-55 | Some sample in [-1, 1] drives the value above 1, because of the 1.2 multiplier. |
| `Gesture.GestureController.constructor` | js/controllers/GestureController.js:11-25 | The registry is `BoneRegistry(traversal)`. The played clips are exactly the waving clip when both arms are registered, and none otherwise. |
| `Gesture.RegistryNames` | js/controllers/GestureController.js:17-21 | A name is registered iff some visited node that is a bone carries it. |
| `Gesture.RegistryHoldsBones` | js/controllers/GestureController.js:17-21 | Every entry is a visited bone stored under its own name, so non-bone nodes are never registered. |
| `Gesture.RegistryLastWins` | js/controllers/GestureController.js:19 | With duplicate names, the bone visited last is the one stored. |
| `Gesture.GestureController.CreateAndPlayWavingAnimation` | js/controllers/GestureController.js:30-64 | With `RightArm` and `LeftArm` both registered, the waving clip is appended to the played clips. Otherwise nothing is built or played. |
| `Gesture.WavingClip` | js/controllers/GestureController.js:52-59 | The clip is `waving-loop` with declared duration -1 and exactly six tracks. |
| `Gesture.WavingTracksWellFormed` | js/controllers/GestureController.js:43-50 | Every track has strictly increasing key times and as many values as times. |
| `Gesture.WavingTrackCases` | js/controllers/GestureController.js:52-59 | Each track of the clip is one of the six declared tracks, on `RightArm` or `LeftArm`. |
| `Gesture.WavingTargetsDistinct` | js/controllers/GestureController.js:52-59 | Every track targets `RightArm` or `LeftArm`, and no two tracks target the same (bone, axis) pair. So the six tracks cover the six pairs once each. |
| `Gesture.WavingArmsMirrored` | js/controllers/GestureController.js:43-50 | For each axis the left-arm track has the right-arm track's key times. Its values are negated on Z and Y and identical on X. |
| `Gesture.WavingSwingClosed` | js/controllers/GestureController.js:49-50 | Each X swing track starts and ends at 0. |
| `Gesture.LatestKeyTimeIsMaximum` | js/controllers/GestureController.js:43-59 | `LatestKeyTime` bounds every key time of every track. For a non-empty track list, some track ends exactly there. |
| `Gesture.WavingLatestKeyIsWaveDuration` | js/controllers/GestureController.js:39-50 | The latest key over the six tracks is 4, the declared `waveDuration`. |
| `StudyMode.RoundHalfUp` | js/controllers/StudyModeController.js:30 | `Math.round` gives the integer n with n - 1/2 <= x < n + 1/2, so halves round up. |
| `StudyMode.SessionDuration` | js/controllers/StudyModeController.js:26-34 | With a stored average greater than 0, the duration is the whole number nearest to twice the average (halves up). Otherwise it is the manual duration. |
| `StudyMode.PersonalisedDurationBounds` | js/controllers/StudyModeController.js:29-30 | A personalised duration is never negative. It is at least 1 s once the average is at least 0.25 s. |
| `StudyMode.StudyModeController.constructor` | js/controllers/StudyModeController.js:8-13 | The controller starts IDLE with no timer id, no pending timer and no callback. |
| `StudyMode.StudyModeController.StartStudySession` | js/controllers/StudyModeController.js:20-48 | Outside IDLE nothing changes. From IDLE the state is STUDYING. Any previous timer is cleared, and exactly one timer is pending under the new `timerId`. It carries the problem text, `SessionDuration(manual, stored average)` and a delay of that many seconds in ms. `Valid` is kept. |
| `StudyMode.StudyModeController.Fire` | js/controllers/StudyModeController.js:39-47 | The fired timer leaves the queue. From STUDYING the state becomes INTERVENING, and a set callback receives the captured problem text and session duration. In any other state nothing else changes. |
| `StudyMode.StudyModeController.CompleteStudySession` | js/controllers/StudyModeController.js:53-59 | From IDLE nothing changes. From any other state the timer is cleared and the state is IDLE. |
| `StudyMode.StudyModeController.ResetToIdle` | js/controllers/StudyModeController.js:65-69 | The controller always ends IDLE with no timer id and nothing pending. The new state does not depend on the old one, so a second call changes nothing. |
| `StudyMode.StudyModeController.ClearTimer` | js/controllers/StudyModeController.js:74-79 | Afterwards `timerId` is null and no timer is pending. |
| `StudyMode.StudyModeController.SetOnInterventionRequired` | js/controllers/StudyModeController.js:85-87 | A callback is set afterwards exactly when one was passed; passing `null` removes it. |
| `StudyMode.StudyModeController.GetState` | js/controllers/StudyModeController.js:89-91 | Reads the state. In a valid controller it is STUDYING whenever a timer can still fire. |
| `StudyMode.AtMostOnePendingTimer` | js/controllers/StudyModeController.js:36-47 | In a valid controller at most one timer can still fire, and one can be pending only while STUDYING. |
| `Onboarding.RandomOperand` | js/controllers/OnboardingController.js:23-24 | For a random draw in [0, 1), the operand lies in 1..10. |
| `Onboarding.MakeProblem` | js/controllers/OnboardingController.js:23-28 | A problem's text shows two operands in 1..10, and its answer is their sum. So the answer lies in 2..20. |
| `Onboarding.OnboardingController.GenerateTestProblems` | js/controllers/OnboardingController.js:20-31 | Exactly `count` problems are returned, the i-th built from the i-th draw, each with an answer in 2..20. |
| `Onboarding.OnboardingController.constructor` | js/controllers/OnboardingController.js:2-13 | The quiz holds 5 generated problems, with index 0 and no results. |
| `Onboarding.OnboardingController.StartTest` | js/controllers/OnboardingController.js:36-40 | The index is reset to 0 and the results to empty, and the first problem's clock starts. `Valid` is kept. |
| `Onboarding.OnboardingController.NextProblem` | js/controllers/OnboardingController.js:45-65 | The test ends exactly when the index is at least the number of problems. It then reports `Average(results)`, which is defined there because of `Valid`. Otherwise the problem's clock starts now. |
| `Onboarding.OnboardingController.HandleAnswer` | js/controllers/OnboardingController.js:70-95 | An answer that fails `Accepted` changes no state. Any other answer, right or wrong, appends the elapsed seconds. While a problem is showing it then reports whether `parseInt` of the answer equals the expected answer, increments the index and ends the test after the fifth. With no problem showing it throws after the append, leaving index and clock unchanged. `Valid` is kept. |
| `Onboarding.Accepted` | js/controllers/OnboardingController.js:74 | The line-74 test passes exactly when the answer is not blank and `isNaN` is false of it. |
| `Onboarding.BlankRejectedByTrimOnly` | js/controllers/OnboardingController.js:74 | Blank text is a number to `isNaN`, so only `trim() === ''` rejects it; it is never accepted. |
| `Onboarding.FractionAnswerAccepted` | js/controllers/OnboardingController.js:74-88 | A decimal fraction such as `1.5` is accepted, and `parseInt` reads its whole part, which is what is compared with the answer. |
| `Onboarding.SignedFractionAnswerAccepted` | js/controllers/OnboardingController.js:74-88 | A signed fraction such as `-0.5` is accepted, and `parseInt` reads its whole part with the sign. |
| `Onboarding.PointFractionAnswerAccepted` | js/controllers/OnboardingController.js:74-88 | A fraction with no whole part such as `.5` is accepted, but `parseInt` gives NaN, so it is recorded as wrong. |
| `Onboarding.ExponentAnswerAccepted` | js/controllers/OnboardingController.js:74-88 | A number with an exponent such as `1e1` is accepted, and `parseInt` reads only the digits before `e`. |
| `Onboarding.OnboardingController.EndTest` | js/controllers/OnboardingController.js:100-107 | The result is the mean of the recorded times. It is absent (NaN in the source) exactly when no time is recorded. |
| `Onboarding.Average` | js/controllers/OnboardingController.js:101 | The average exists iff at least one time is recorded. |
| `Onboarding.AverageWithinBounds` | js/controllers/OnboardingController.js:101 | The average lies between any lower and upper bound of the recorded times. |
| `Onboarding.AveragePositive` | js/controllers/OnboardingController.js:101 | If every recorded time is positive, the average is positive. |
| `Onboarding.CorrectAnswerAccepted` | js/controllers/OnboardingController.js:74-88 | Typing a problem's own answer in decimal is accepted and parses to the expected answer. |
| `NumberText.DecimalTextRoundTrip` | js/controllers/OnboardingController.js:26 | The decimal text of a whole number is a run of digits, and reading it back gives the number. |
| `NumberText.DecimalTextParses` | js/controllers/OnboardingController.js:74-85 | Decimal text is neither blank nor non-numeric, and parsing it gives the number. |
| `NumberText.TrimStart` | js/controllers/OnboardingController.js:74 | The result is a suffix of the text, every dropped character is white space, and it does not start with white space. |
| `NumberText.TrimEnd` | js/controllers/OnboardingController.js:74 | The result is a prefix of the text, every dropped character is white space, and it does not end with white space. |
| `NumberText.TrimEmptyIffBlank` | js/controllers/OnboardingController.js:74 | `trim()` gives the empty string exactly for text with nothing but white space. |
| `NumberText.ScanAppend` | js/controllers/OnboardingController.js:74 | The `isNaN` scanner reads a concatenation as its parts one after the other. |
| `NumberText.IsNumeric` | js/controllers/OnboardingController.js:74 | `isNaN` is false of blank text, since `Number` reads it as 0, and of any run of digits. |
| `NumberText.FractionIsNumeric` | js/controllers/OnboardingController.js:74 | Digits, a point and digits form a number. |
| `NumberText.ExponentIsNumeric` | js/controllers/OnboardingController.js:74 | Digits, `e` and digits form a number. |
| `NumberText.SecondPointIsNotNumeric` | js/controllers/OnboardingController.js:74 | Text with a second point after a fraction is never a number. |
| `NumberText.ParseInteger` | js/controllers/OnboardingController.js:85 | `parseInt` of blank text is NaN. |
| `NumberText.ParseIntegerSkipsBlank` | js/controllers/OnboardingController.js:85 | `parseInt` ignores leading white space. |
| `NumberText.ParseIntegerReadsLeadingDigits` | js/controllers/OnboardingController.js:85 | `parseInt` of digits followed by a non-digit is the digits' value, whatever follows. |
| `NumberText.ParseIntegerReadsSignedDigits` | js/controllers/OnboardingController.js:85 | With a sign in front, `parseInt` reads the same digits, negated for `-`. |
| `UserProfile.ProfileIn` | js/managers/UserProfileManager.js:12-18 | With nothing stored, loading yields the default profile; a completed onboarding or a stored average can only come from storage. |
| `UserProfile.UserProfileManager.LoadProfile` | js/managers/UserProfileManager.js:12-18 | With nothing stored it yields the default profile; otherwise it yields a stored profile. |
| `UserProfile.UserProfileManager.IsOnboardingComplete` | js/managers/UserProfileManager.js:42-44 | False for a user still on the default profile. |
| `UserProfile.UserProfileManager.GetAverageCalculationTime` | js/managers/UserProfileManager.js:50-52 | Null for a user still on the default profile. |
| `UserProfile.ProfileInAfterStore` | js/managers/UserProfileManager.js:13-24 | After a profile is written under `aiAvatarUserProfile`, loading yields that profile, whatever else is stored. |
| `UserProfile.UserProfileManager.constructor` | js/managers/UserProfileManager.js:4-18 | With a stored profile, the manager starts from it. With nothing stored, it starts from `{onboardingComplete: false, averageCalculationTime: null}`. |
| `UserProfile.UserProfileManager.SaveProfile` | js/managers/UserProfileManager.js:23-25 | The current profile is written under `aiAvatarUserProfile`. Every other key is untouched, and loading now yields the current profile. |
| `UserProfile.UserProfileManager.CompleteOnboarding` | js/managers/UserProfileManager.js:32-52 | The profile becomes complete with average `t` and is saved. Afterwards `IsOnboardingComplete()` is true, `GetAverageCalculationTime()` is `t`, and loading yields the profile. |

## Left out

- Animation-mixer playback and keyframe interpolation: the clip is modelled as data handed to the mixer (`actions`); how the three.js mixer samples it is library behaviour.
- The mixers themselves: `AvatarController` creates one and passes it on, `GestureController` ignores that argument and creates its own, and nothing calls `GestureController.update`. `Avatar.AvatarController.Update` therefore models only the lip-sync branch, and its `deltaTime` (used only by the mixer) is dropped.
- `Math.sin(performance.now() * 0.005 * 20)`: floating-point sine of the wall clock. The oscillator sample is an input to `Update`, and the range lemma assumes it lies in [-1, 1].
- Floating point in general: influences, times and durations are exact reals.
- Avatar.AvatarController.constructor: requires each mesh with morph targets to have its own influence array, indexed by its own dictionary, as loaded assets do. Two meshes sharing one array are not modelled.
- `Math.random` and `Date.now`: the random draws and the clock reading `now` are inputs. One reading serves both the elapsed time and the next problem's start.
- NumberText.IsNumeric: models whether `Number` accepts the text, not the number it produces; the numeric value is needed only through `parseInt`.
- Onboarding.OnboardingController.HandleAnswer: after the fifth answer `nextProblem` returns before replacing the form, so its button stays wired. A second click records a sixth time and then throws a `TypeError` reading `testProblems[5].answer`; the model returns `Threw` with that time kept, and `Valid` allows more results than answered problems once all are answered. Whether `onTestComplete`, which is not part of this model, closes the form first is not known here.
- DOM work, `alert`, `focus` and all console logging; the `onTestComplete` callback is represented by the average `NextProblem` and `HandleAnswer` return.
- `setTimeout`/`clearTimeout` timing: timers are an explicit pending map with host-chosen positive ids and an explicit `Fire` event; the intervention callback is represented by its presence flag and the arguments `Fire` returns.
- `localStorage` and JSON: the storage maps keys to the profiles their texts parse to, taking serialisation to round-trip.
- js/core/AvatarLoader.js (network loading with URL fallback) and js/main.js (startup wiring); the speech and scene-setup modules they import are not part of this model.
