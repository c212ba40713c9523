# VeadoController gesture core, modelled in Dafny

VeadoController watches a webcam face and turns facial gestures into key
presses. This project models its decision core, in `src/main.py`:

- **StableScore**: the per-gesture smoothing filter. It keeps a bounded FIFO
  window of recent raw signal values and averages it. A boolean is latched
  with two thresholds (a Schmitt trigger): it switches on only from off when
  the mean is strictly above the sensitivity, and off only from on when the
  mean is strictly below the release threshold.
- **The arbitration in `EmotionDetector.detect`**: the raw signal formulas
  (brow-down, smile, tilt, malicious, wink, frown forcing, and the fold over
  the detected hands for the thinking gesture). It also covers the seven
  filters updated in a fixed order, where a gesture is skipped when it is
  disabled, silenced by an earlier gesture, or (REFLECHIR) lacks the hand
  model. Then comes the priority pick, with NEUTRE when no face is
  detected.
- **The action lock**: a non-neutral action is held for its configured
  minimum duration. The application loop then commits the returned action
  as the announced one.
- **The configuration merge of `App.load_config`**: the built-in defaults, the
  legacy reset, and the completion of every section with the default entries
  it lacks. Any step that raises falls back to the defaults.

The model takes the source's own form:

- `StableScore` and `EmotionDetector` are classes whose methods update their
  fields in place.
- The loops (over the detected hands, and over the configuration sections
  and their entries) are methods with loop invariants.
- The formulas are functions.

Each method is proved against a value-level specification:

- `Filter`/`Step`/`Run` for the filter;
- `Bank`/`Evaluate`/`Classify` for a frame;
- `Lock`/`Resolve`/`Tick` for the lock;
- `Merged` for the configuration merge.

The properties are proved as lemmas about those functions.

Modules, one per file:

- `actions.dfy` (Actions): the action labels and the per-gesture constants.
  These are the window sizes, the release margins and the priority rank.
- `stabilizer.dfy` (Stabilizer): the filter specification and the
  `StableScore` class.
- `features.dfy` (Features): the frame snapshot, the blendshape dictionary,
  the signal formulas and the hand loop.
- `arbiter.dfy` (Arbiter): one frame of evaluation, suppression and priority,
  on values.
- `action_lock.dfy` (ActionLock): the lock and the commit, on values.
- `detector.dfy` (Detector): the `EmotionDetector` class.
- `config.dfy` (Config): the configuration defaults and merge.

Where the documentation and the code disagree, the model follows the code:

- The documented smoothing-lag scenario gives the sixth mean as 0.48. The
  code averages the window [0, 0, 0.6, 0.6, 0.6] and gets 0.36
  (`SmoothingLagSlide`, `SlideMeans`). Either way the latch stays off.
- The documented frown/raise example says RAISE wins with a raised brow of
  0.5 at the default sensitivity 0.5. The code tests the mean with a strict
  `>`, so that frame does not latch (`RaiseNeedsStrictExcess`).
- The documentation says a missing threshold skips its gesture. The code
  indexes the thresholds table directly, which raises for a missing gesture.
  The model therefore requires a full table (`Full(thresholds)`). The
  application always builds that table from its seven sliders.

## Model

| member | source | states |
|---|---|---|
| Actions.Rank | src/main.py:171-177 | each gesture's position in the priority order is below 7 |
| Actions.RankDistinct | src/main.py:171-177 | no two gestures share a position, so the priority order is strict |
| Actions.WindowSize | src/main.py:89-97 | each gesture's filter window holds between 4 and 6 values |
| Actions.Margin | src/main.py:140-169 | a gesture's release threshold lies between 0.10 and 0.15 below its sensitivity |
| Stabilizer.StableScore.constructor | src/main.py:46-48 | a new filter has its window size, an empty window, the latch off and nothing pushed |
| Stabilizer.StableScore.Update | src/main.py:50-59 | the new filter value is one `Step` of the old one; the pushed history grows by the value; it returns the new latch and the mean of the non-empty window |
| Stabilizer.Push | src/main.py:47-51 | appending to a window bounded by n gives the last n values of window + [x]: at most n values, ending with x |
| Stabilizer.Latch | src/main.py:54-57 | from off, the latch switches on exactly when the mean is strictly above high; from on, it switches off exactly when the mean is strictly below low |
| Stabilizer.Mean | src/main.py:52 | the average times the window's length is the window's sum |
| Stabilizer.Step | src/main.py:50-59 | one update keeps the capacity; the window is the last `capacity` values of the old window plus x; the latch is `Latch` of the new mean |
| Stabilizer.Run | src/main.py:50-59 | any run of updates keeps the window within its capacity |
| Stabilizer.LastNAppend | src/main.py:47-51 | evicting down to n before appending more values loses nothing once the result is cut to n again |
| Stabilizer.RunWindow | src/main.py:47-52 | after any run of updates, the window is exactly the last `capacity` values of everything seen, oldest first |
| Stabilizer.MeanBounds | src/main.py:52 | the mean of values that all lie in [lo, hi] lies in [lo, hi] |
| Stabilizer.MeanAbove | src/main.py:52 | a non-empty window whose values all exceed lo averages above lo |
| Stabilizer.StepAbove | src/main.py:51-55 | if the old window and the new value all exceed high (with low <= high), the latch is on after the update |
| Stabilizer.StepInRange | src/main.py:51-58 | one update with a value in [low, high], on a window in [low, high], keeps the latch and keeps the window in range |
| Stabilizer.NoChatter | src/main.py:54-58 | while every value stays within [low, high], no run of updates flips the latch in either direction |
| Stabilizer.MeanAtLeast | src/main.py:52 | a window whose values are all at least lo averages at least lo |
| Stabilizer.MeanAtMost | src/main.py:52 | a window whose values are all at most hi averages at most hi |
| Stabilizer.StepStaysOn | src/main.py:50-58 | one update of a latched filter whose window and new value are all at least low keeps the latch on and the window at least low |
| Stabilizer.StepStaysOff | src/main.py:50-58 | one update of a released filter whose window and new value are all at most high keeps the latch off and the window at most high |
| Stabilizer.StaysOn | src/main.py:50-58 | a latched filter, even just after crossing above high, stays on through any run of values at least low: release needs a mean strictly below low |
| Stabilizer.StaysOff | src/main.py:50-58 | a released filter stays off through any run of values at most high: latching needs a mean strictly above high |
| Stabilizer.CrossThenHold | src/main.py:50-58 | a five-value filter fed 0.6 latches at high 0.5; seven following values alternating 0.4 and 0.45 leave it on |
| Stabilizer.SmoothingLagFill | src/main.py:46-59 | the first four frames 0, 0, 0, 0.6 of the scenario on a five-value window with high 0.5: the window grows frame by frame and the latch stays off |
| Stabilizer.SmoothingLagSlide | src/main.py:46-59 | the last two frames 0.6, 0.6: the window fills, then drops its oldest value, and the latch is still off |
| Stabilizer.FillMeans | src/main.py:52 | the averages of the filling windows are 0, 0, 0 and 0.15 |
| Stabilizer.SlideMeans | src/main.py:52 | the averages of the full windows are 0.24 and 0.36 |
| Features.ScoresKeys | src/main.py:115 | every blendshape name is a key of the dictionary, and every key is one of the names |
| Features.ScoresLast | src/main.py:115 | each name maps to the score of its last occurrence in the list |
| Features.Scores | src/main.py:115 | the dictionary has at most as many keys as the list has entries, and the last entry's name maps to its score |
| Features.BrowDown | src/main.py:117 | the brow-down signal is the larger of the two brow-down scores |
| Features.Smile | src/main.py:119 | the smile signal lies between the two mouth-smile scores |
| Features.Tilt | src/main.py:121-123 | the tilt is non-negative, and zero exactly when the two eye corners are level |
| Features.Wink | src/main.py:150 | the wink signal is non-negative, and zero exactly when both eyes blink alike |
| Features.MaliciousSignal | src/main.py:144-145 | zero unless brow-down and smile both reach 0.25; otherwise their mean, which is at least 0.25 |
| Features.MaliciousNeedsBoth | src/main.py:144-145 | a 0.9 brow-down with a 0.1 smile gives no malicious signal |
| Features.FrownSignal | src/main.py:159-160 | zero while the brow raise exceeds 0.4, and the brow-down signal otherwise |
| Features.ThinkingIsMax | src/main.py:125-135 | the folded thinking signal is zero when no hand touches the chin; otherwise it is the largest contribution of a touching hand, and at least every one of them |
| Features.ThinkingSignal | src/main.py:125-135 | the folded thinking signal is never negative |
| Features.RawThinking | src/main.py:125-135 | the loop over the hands computes the folded thinking signal, with its bounds |
| Features.Extract | src/main.py:117-160 | the frame's signals carry the thinking signal, the malicious and frown forcing, and non-negative tilt and wink |
| Arbiter.InitialBank | src/main.py:89-97 | the initial filters are fresh, each with its own gesture's window size |
| Arbiter.Guard | src/main.py:139-168 | a gesture is evaluated only when enabled (REFLECHIR also needs the hand model); an enabled, evaluable gesture is skipped only because MALICIEUX, CLIN_DOEIL or PENCHE latched and outranks it |
| Arbiter.Consider | src/main.py:139-169 | a gesture whose guard fails keeps its filter (window and latch) frozen; the filter keeps its window size |
| Arbiter.Evaluate | src/main.py:137-169 | mutual exclusion: MALICIEUX silences CLIN_DOEIL, PENCHE, FRONCEMENT and SOURIRE; CLIN_DOEIL silences PENCHE, FRONCEMENT and SOURIRE; PENCHE silences HAUSSEMENT and SOURIRE; REFLECHIR needs the hand model |
| Arbiter.EvaluateSteps | src/main.py:137-169 | any bank and flags that take the seven guarded steps in turn are the frame's evaluation |
| Arbiter.EvaluateByTable | src/main.py:137-169 | row by row: a gesture whose guard holds is updated once with its own signal and reports that filter's latch; a gesture whose guard fails is frozen and reports false |
| Arbiter.LatchedIsGuarded | src/main.py:137-169 | every gesture reported this frame was evaluated this frame, and is enabled |
| Arbiter.Winner | src/main.py:171-177 | the physical action is NEUTRE exactly when nothing latched; otherwise it is a latched gesture with no latched gesture ranked above it |
| Arbiter.FrameSignals | src/main.py:113-135 | the thinking signal is never negative and is 0 without the hand model; the malicious and frown signals follow their forcing rules |
| Arbiter.Classify | src/main.py:111-177 | with no face nothing changes and the action is NEUTRE; any other action comes from a detected face and an enabled gesture, and REFLECHIR needs the hand model |
| Arbiter.ThinkingOutranks | src/main.py:139-171 | an evaluated REFLECHIR whose window and new value exceed its sensitivity wins the frame, whatever else fires |
| Arbiter.MaliciousOutranks | src/main.py:142-172 | when REFLECHIR cannot be evaluated, a saturated MALICIEUX wins the frame, whatever else fires |
| Arbiter.RaiseNeedsStrictExcess | src/main.py:159-165 | a raised brow of 0.5 forces the frown signal to 0; at sensitivity 0.5 a fresh HAUSSEMENT filter fed 0.5 does not latch, and fed 0.6 it does |
| ActionLock.Resolve | src/main.py:179-189 | while a non-neutral action is locked, it is returned with the unlock time unchanged; otherwise the physical action is returned; a change to a non-neutral action restarts the lock for its duration, and otherwise the unlock time is unchanged |
| ActionLock.Commit | src/main.py:452-458 | the returned action becomes the announced one |
| ActionLock.Tick | src/main.py:179-189 | one frame with its commit (src/main.py:452-458): a held lock is unchanged, otherwise the physical action is announced, and announcing NEUTRE keeps the unlock time |
| ActionLock.HoldsMinimumDuration | src/main.py:180-186 | an action announced at time t is returned at every frame before t plus its minimum duration, whatever the physical action |
| ActionLock.ExpiredFollows | src/main.py:180-187 | once the unlock time has passed, the physical action is returned at once |
| ActionLock.NeutralNeverLocks | src/main.py:183-187 | from NEUTRE, the next physical action is returned at once, and a stay in NEUTRE keeps the unlock time |
| ActionLock.HeldThroughout | src/main.py:180-181 | no run of frames before the unlock time changes a locked announced action |
| ActionLock.SmileHeldOneSecond | src/main.py:179-189 | SOURIRE held for 1.0 from start-up is announced at 0, still returned at 0.5 with a neutral face, and gives way to NEUTRE at 1.0 |
| Detector.EmotionDetector.NewFaceFilters | src/main.py:90-92 | three new, distinct filters for FRONCEMENT, SOURIRE and HAUSSEMENT, with window sizes 6, 6 and 4, each empty and unlatched |
| Detector.EmotionDetector.NewOtherFilters | src/main.py:93-96 | four new, distinct filters for MALICIEUX, PENCHE, CLIN_DOEIL and REFLECHIR, with window sizes 5, 6, 4 and 5, each empty and unlatched |
| Detector.EmotionDetector.constructor | src/main.py:87-99 | seven distinct filters with their gestures' window sizes, each empty and unlatched; NEUTRE announced; unlock time 0 |
| Detector.EmotionDetector.Filters | src/main.py:89-97 | the filter objects, read as values, form a valid bank |
| Detector.EmotionDetector.Gate | src/main.py:139-169 | a guarded update in place: the filter object's new value is `Consider` of its old value, and the result is the new latch when the guard holds, false otherwise |
| Detector.EmotionDetector.EvaluateSuppressors | src/main.py:138-151 | REFLECHIR, MALICIEUX and CLIN_DOEIL updated in place under their guards |
| Detector.EmotionDetector.EvaluatePosture | src/main.py:153-161 | PENCHE and FRONCEMENT updated in place under their guards |
| Detector.EmotionDetector.EvaluateExpressions | src/main.py:163-169 | HAUSSEMENT and SOURIRE updated in place under their guards |
| Detector.EmotionDetector.EvaluateFilters | src/main.py:137-169 | the in-place updates of the seven filters leave exactly the bank and flags of `Evaluate` |
| Detector.EmotionDetector.FaceSignals | src/main.py:113-135 | the signals computed from a snapshot with a face, the hand loop included, are `FrameSignals` |
| Detector.EmotionDetector.Arbitrate | src/main.py:111-177 | the frame's filters and physical action are those of `Classify` |
| Detector.EmotionDetector.Hold | src/main.py:179-189 | the returned action and the new unlock time are those of `Resolve` on the current lock state |
| Detector.EmotionDetector.Detect | src/main.py:101-189 | one frame of detection is `Classify` followed by `Resolve`; the announced action is untouched |
| Detector.EmotionDetector.Commit | src/main.py:452-458 | an action is announced exactly when it differs from the current one, and becomes current |
| Detector.EmotionDetector.OnFrame | src/main.py:450-458 | a frame of the application loop leaves the filters of `Classify` and the lock state of one `Tick` |
| Config.DefaultTable | src/main.py:370-388 | the built-in defaults have the four sections; each covers the seven gestures, and the key mapping also covers NEUTRE |
| Config.AsDocument | src/main.py:370-388 | the defaults as a document have one object per section |
| Config.Contains | src/main.py:394-401 | the membership test raises exactly on numbers, booleans and null; on an object it tests the keys |
| Config.Legacy | src/main.py:394 | no key mapping is not legacy; a key mapping object is legacy exactly when it names HAPPY; a number, boolean or null key mapping makes the test raise, which counts as legacy |
| Config.Overlay | src/main.py:393-397 | the copy of the defaults updated with the loaded document: loaded values win at every top-level key |
| Config.FillEntries | src/main.py:400-401 | completing a section object keeps every entry and adds exactly the missing defaults; a string or list is kept as it is |
| Config.Fill | src/main.py:400-401 | completing keeps the kind of the value, leaves a string or list as it is, and gives an object exactly the default names plus its own |
| Config.Filled | src/main.py:398-401 | completing a document keeps its keys and leaves every key that is not a default section unchanged |
| Config.Merged | src/main.py:389-405 | a rejected document (legacy, or a section that cannot be completed) gives exactly the defaults; every default section is present |
| Config.FillSection | src/main.py:400-401 | the inner loop succeeds exactly when the section can be completed, and then yields the completed section |
| Config.FillAll | src/main.py:398-401 | the outer loop succeeds exactly when every section can be completed, and then yields the completed document |
| Config.MergeConfig | src/main.py:390-403 | the loader's merge produces exactly `Merged` of the loaded document |
| Config.LoadConfig | src/main.py:389-405 | a missing or unreadable file gives the defaults; a parsed document gives its merge with the defaults |
| Config.SectionsComplete | src/main.py:398-401 | after the merge, every section is present and contains every name of its defaults |
| Config.LoadedValuesWin | src/main.py:397-401 | in a kept document, a loaded section entry wins over the default, a default fills each missing entry, and nothing else is added |
| Config.OtherKeysKept | src/main.py:397 | in a kept document, every other top-level key is kept unchanged |
| Config.LegacyGivesDefaults | src/main.py:394-395 | a key mapping that names HAPPY yields exactly the defaults |
| Config.EmptyGivesDefaults | src/main.py:393-401 | an empty document gives the defaults |
| Config.FillTwice | src/main.py:400-401 | completing a section twice is completing it once, and keeps it completable |
| Config.FilledTwice | src/main.py:398-401 | completing a document twice is completing it once |
| Config.OverlayCovered | src/main.py:393-397 | a document that has every section, laid over the defaults, is unchanged |
| Config.FilledDefaults | src/main.py:370-401 | the defaults are already complete |
| Config.KeysLackHappy | src/main.py:394-401 | no merged configuration fails the legacy test when the defaults do not name HAPPY |
| Config.MergeIdempotent | src/main.py:393-401 | merging an already merged configuration changes nothing |
| Config.DefaultKeysLackHappy | src/main.py:371-375 | the built-in key mapping does not name HAPPY |
| Config.DefaultsFixed | src/main.py:370-401 | the built-in defaults merge to themselves |
| Config.MergedCoversGestures | src/main.py:370-401 | every loaded configuration has the four sections, each covering the seven gestures, and the key mapping covers NEUTRE |

## Left out

- Camera capture, colour conversion and the face and hand landmark models (src/main.py:67-85, 102-109) are foreign libraries. Their output is the input snapshot (`Features.Snapshot`): the landmark lists and blendshape lists of the detected faces, and the detected hands.
- The chin-to-fingertip Euclidean distances (src/main.py:127-132) are floating-point square roots. Each hand arrives as its index-tip and thumb-tip distances; the model takes their minimum.
- `time.time()` is replaced by an injected `now`.
- Floating-point arithmetic is modelled as exact real arithmetic. Rounding of the means and sums is not captured.
- The Tkinter interface, the preview, the setup wizard and `save_config_silent` are user interface code.
- The key presses, the threaded countdown of `send_key_delayed` and the status label (src/main.py:234-253, 453-456, 460-467) are side effects and concurrency. `Commit` reports only whether the action is announced.
- The `float()` parsing of the duration entries, with its 0.0 fallback (src/main.py:446-448), is text parsing. The durations arrive as a table of reals, and a missing entry counts as 0.
- Reading the configuration file and parsing its JSON (src/main.py:389-392) are I/O. `LoadConfig` takes the parsed top-level object, or `None` for a missing or unparsable file.
- Config.MergeConfig: a top-level JSON value that is not an object is not modelled. The loader's shallow copy of the defaults is not modelled either; it shares section objects that the merge never mutates.
- A detected face must have at least 264 landmarks (`WellFormedSnapshot`), as the face model guarantees (it reports 478). On a shorter list the lookup of landmark 263 at src/main.py:122 raises an IndexError; that error path is not modelled.
- The thresholds table must hold all seven gestures (`Full(thresholds)`). In the source a missing gesture raises on lookup; that error path is not modelled.
- A filter's window size must be positive. The detector builds filters of sizes 4 to 6 only.
- The Tcl/Tk environment setup, `resource_path` and the packaging script `build_project.py` are build and deployment code.
