# Personal trainer: rep counting, verified

A Dafny model of the core of a pose-based personal trainer. It counts the
repetitions of an exercise from the per-frame joint metrics a pose tracker
produces, grades each repetition, and reports progress to a web front end.
It also matches exercise names read from a Fitbod workout screenshot to the
exercises it can track, and parses the text of such a screenshot into a
workout plan.

The model covers:

- **The rep-counting engine** (`base_exercise.dfy`, module `BaseExercise`). This is the
  state machine of `BaseExerciseDetector`. Each frame is first checked for a
  return to the start position, then for entry into the rep position, and
  then tracked against the best metrics. Counted reps are spaced by a
  cooldown. The engine is a pure `Step` over an `EngineState` value, plus the
  class `ExerciseDetector`, whose `OnJointsDetected` updates its fields by
  exactly that step.
- **The ten exercise profiles** (one `*_profile.dfy` file each, with dispatch
  in `profiles.dfy`). Each profile has its metrics, its in-position and
  at-start predicates, its quality ladder and its best-metrics merge, all
  over `map<string, real>`. Combined with the engine they give facts such as
  "every counted squat is graded Excellent or Good".
- **The three event handlers** of `api/core/event_handlers.py`
  (`event_handlers.dfy`): sign crossing, proximity edge and angle-threshold
  edge. Each is a class whose fields change per frame.
- **The two standalone detectors** `squat.py` and `shoulder_press.py`
  (`legacy_squat.dfy`, `legacy_shoulder_press.dfy`). They have no cooldown,
  and the press is counted on entry.
- **The helpers of `exercises/utils.py`** (`utils.dfy`), including the
  `MovingAverage` window as a class.
- **The exercise registry** (`registry.dfy`): lookup, listing and grouping by
  category.
- **The scanned-name matcher** of the two servers' `upload_video`
  (`name_matcher.dfy`).
- **The statistics** both servers report (`tracker_stats.dfy`).
- **The Fitbod text parser** `parse_extracted_text_advanced`
  (`workout_parser.dfy`).
- **Supporting modules:** `wrappers.dfy` (`Option`, `Result`), `text.dfy` (the
  string operations the Python code uses) and `metric_maps.dfy` (metric maps
  and the best-metrics merges they share).

Angles and distances are inputs: the model starts from the metrics the pose
geometry produces, not from pixel coordinates.

## Defining functions

Some functions define an operation of the source and carry no contract of
their own. Their properties are stated by the lemmas named beside them,
whose rows in the table below cite the same lines.

- `EventHandlers.CrossingStep` (api/core/event_handlers.py:70-113): CrossingFiresIff, CrossingLastPosition, CrossingFirstFrameSilent, CrossingQuietRun, CrossingSpacing.
- `EventHandlers.ProximityStep` (api/core/event_handlers.py:167-201): ProximityFiresIff, ProximityStaysClose, ProximityCloseRunFiresAtMostOnce.
- `EventHandlers.AngleStep` (api/core/event_handlers.py:275-314): AngleFiresIff, AngleEdgeLostInCooldown, AngleStaysCrossed, ThresholdComparisonModes.
- `WorkoutParser.ParseFrom` (api/services/fitbod_scanner.py:26-158) and `WorkoutParser.Parse` (api/services/fitbod_scanner.py:16-160): ParseFromStep, ParseFromFresh, ParseNoDuplicates, ParseFromProvenance, ParseRecordsFromLines, NameWithoutDataNotSeen, ParseExtractedTextAdvanced.
- `NameMatcher.KeywordRule` (api/app.py:401-437): KeywordMatch, KeywordFallbackNone, SquatKeywordFirst, DeadliftKeywordRule, CalfNeverFrontRaise, FrontRaiseRule, LegPressWordsAbsent.
- `NameMatcher.AppMatch` (api/app.py:324-437) and `NameMatcher.WebMatch` (web_server.py:313-429): MatchExerciseName, MatchedId, MatchedIdRegistered, WebMatchEqualsAppMatch.
- `TrackerStats.Status` (web_server.py:190-198): StatusBranches, NeverMustReturn, RunNeverMustReturn.
- `TrackerStats.DisplayName` (web_server.py:186-187): RegisteredDisplayName, UnregisteredDisplayName.
- `Utils.MapValue` (exercises/utils.py:271-286): MapValueEndpoints, MapValueBetween.
- `Registry.UnknownExerciseMessage` (api/exercises/__init__.py:97-98): the error clause of GetExerciseDetector.
- `LegacySquat.DepthBand` (squat.py:331-338): DeepSquatBand, DepthBandMonotone.
- `IsInRepPosition` and `IsAtStartingPosition` of each profile (the position tests of api/exercises/*.py and exercises/*.py): the profile's PositionsDisjoint, EntrySeedsBest and MergeKeepsBest, and the engine's StepInvariant and RunInvariant.
- `Utils.VerticalDistance` (exercises/utils.py:59-71): a subtraction, read by the height metrics of the profiles and by AboveBelowMirror.
- `Utils.IsJointExtended` and `Utils.IsJointFlexed` (exercises/utils.py:243-268): strict comparisons with the defaults 160 and 120 degrees; no detector of the core calls them.

## Model

| member | source | states |
|---|---|---|
| Text.LowerChar | api/app.py:324 | an upper-case ASCII letter becomes lower case; every other character is unchanged |
| Text.LowerPointwise | api/app.py:324 | `lower()` keeps the length and lower-cases each character in place |
| Text.UpperChar | web_server.py:187 | a lower-case ASCII letter becomes upper case; every other character is unchanged |
| Text.Title | web_server.py:187 | `title()` keeps the length, upper-cases a letter at the start or after a non-letter, and lower-cases every other letter |
| Text.TrimLeftSuffix | api/services/fitbod_scanner.py:27 | `lstrip` keeps a suffix of the input that does not start with white space, and drops only white space |
| Text.TrimRightPrefix | api/services/fitbod_scanner.py:27 | `rstrip` keeps a prefix of the input that does not end with white space, and drops only white space |
| Text.StripTrims | api/services/fitbod_scanner.py:27 | `strip()` is a slice of the input with only white space outside it, and the slice neither starts nor ends with white space |
| Text.KeptEndsInside | api/services/fitbod_scanner.py:27 | the white space that `rstrip` removes from the part `lstrip` kept is white space at the end of the input |
| Text.Split | api/services/fitbod_scanner.py:22 | `split(sep)` yields at least one piece, and no piece contains the separator |
| Text.IndexOf | api/services/fitbod_scanner.py:101 | the first index holding the character: it holds it, and no earlier index does |
| Text.DigitChar | api/services/fitbod_scanner.py:110 | the digit character for a value below ten reads back as that value |
| Text.NatToString | api/services/fitbod_scanner.py:110 | `str(n)` is a non-empty run of decimal digits whose value is n, with no leading zero, and a single digit exactly when n is below ten |
| Text.Pad2 | api/services/fitbod_scanner.py:110 | `f"{n:02d}"` is at least two decimal digits whose value is n, and exactly two when n is below 100 |
| MetricMaps.Max | api/exercises/calf_raise.py:83-86 | the larger of two values: at least both, and one of them |
| MetricMaps.Min | api/exercises/deadlift.py:95-100 | the smaller of two values: at most both, and one of them |
| Utils.Abs | exercises/utils.py:74-85 | the absolute value is non-negative and equals the value or its negation |
| Utils.HorizontalDistance | exercises/utils.py:74-85 | the horizontal distance is never negative |
| Utils.Midpoint | exercises/utils.py:88-99 | the midpoint is equally far from both points on every axis |
| Utils.HorizontalDistanceSymmetric | exercises/utils.py:132-144 | the horizontal distance is symmetric, and vertical alignment means a horizontal distance under the 0.05 tolerance |
| Utils.AboveBelowMirror | exercises/utils.py:102-129 | `a` above `b` exactly when `b` is below `a`, exactly when the vertical offset is below minus the threshold; with a non-negative threshold no point is both above and below another |
| Utils.AllJointsDetected | exercises/utils.py:196-206 | true exactly when every joint is present |
| Utils.BilateralAverage | exercises/utils.py:222-240 | None only when both sides are missing, the one present side when only one is, and otherwise the value equally far from both |
| Utils.BilateralAverageBetween | exercises/utils.py:222-240 | the average of two present sides lies between them |
| Utils.MapValueEndpoints | exercises/utils.py:271-286 | the map is undefined exactly on an empty source range (the division by zero) and sends the two ends of the source range to the two ends of the target |
| Utils.MapValueBetween | exercises/utils.py:271-286 | a value inside a non-empty source range lands inside the target range |
| Utils.Clamp | exercises/utils.py:289-301 | the result lies in the range when the range is non-empty, equals the value inside it, and is the nearer bound outside it; an inverted range gives the minimum |
| Utils.LastN | exercises/utils.py:311-316 | the window keeps the last `k` values (all of them when there are fewer), as a suffix of the input |
| Utils.SumBounds | exercises/utils.py:311-316 | a sum of values each between `lo` and `hi` lies between `n*lo` and `n*hi` |
| Utils.MeanBounds | exercises/utils.py:311-316 | the moving average never leaves the range of the values it averages |
| Utils.MovingAverage.constructor | exercises/utils.py:307-309 | an empty window with the given size |
| Utils.MovingAverage.Add | exercises/utils.py:311-316 | the value is appended and the oldest dropped once the window overflows; the result is the mean of the window, and is None (the division by zero) only when the window is empty, which a window size of at least 1 rules out |
| Utils.MovingAverage.Reset | exercises/utils.py:318-320 | the window is empty again |
| Utils.MovingAverage.GetAverage | exercises/utils.py:322-327 | None on an empty window, otherwise the mean of the window |
| Utils.SetupCheckScenario | verify_setup.py:122-124 | a fresh window of 5 that receives 10 reports an average of 10 |
| Text.SplitJoin | api/services/fitbod_scanner.py:22 | splitting on the separator loses nothing: joining the pieces with it gives the text back |
| Registry.ParseId | api/exercises/__init__.py:19-80 | reading a key back gives a detector whose key it is, or None for a key no detector has |
| Registry.IdRoundTrip | api/exercises/__init__.py:19-80 | every detector key reads back as its own detector |
| Registry.IdInjective | api/exercises/__init__.py:19-80 | no two detectors share a key |
| Registry.Ids | api/exercises/__init__.py:19-80 | the keys of the entries, one per entry, in order |
| Registry.RegistryEntries | api/exercises/__init__.py:19-80 | the registry holds ten entries, each the entry of its own detector, and every detector has one |
| Registry.RegistryIdsDistinct | api/exercises/__init__.py:19-80 | no key occurs twice, as in a dictionary |
| Registry.Lookup | api/exercises/__init__.py:97-98 | `EXERCISE_REGISTRY[id]` finds an entry exactly when the id is a key, and the entry found has that id |
| Registry.LookupIn | web_server.py:186-187 | `.get(id)` on any entry list: found exactly when the id is a key, and the entry has that id |
| Registry.GetExerciseDetector | api/exercises/__init__.py:83-105 | a known id builds a fresh, valid detector for that entry; an unknown id is the ValueError with the message listing the available ids |
| Registry.LookupIsParseId | api/exercises/__init__.py:97-98 | an id is registered exactly when it is the key of a detector, and then finds that detector's entry |
| Registry.RegistryComplete | api/exercises/__init__.py:19-80 | every detector has its entry in the registry |
| Registry.RegisteredId | api/exercises/__init__.py:19-80 | every detector's key is registered with that detector's entry |
| Registry.GetAvailableExercises | api/exercises/__init__.py:108-123 | one info record (id, name, description, category) per registry entry, in registry order |
| Registry.CategoryMembers | api/exercises/__init__.py:126-145 | a category's listing has at most one summary per entry |
| Registry.GroupedIsPartition | api/exercises/__init__.py:126-145 | the grouping has a key exactly for each category some entry has, and each key lists that category's entries, in order and never empty |
| Registry.CategoryMembersEmpty | api/exercises/__init__.py:126-145 | a category no entry has lists nothing |
| Registry.GetExercisesByCategory | api/exercises/__init__.py:126-145 | `get_exercises_by_category` returns the registry grouped by category |
| Registry.GroupByCategory | api/exercises/__init__.py:126-145 | the grouping loop over any entry list yields that list grouped by category |
| Registry.GroupedSnoc | api/exercises/__init__.py:135-143 | one more entry appends its summary to its category's list, creating the list if needed, and changes no other key |
| Registry.CategoryMembersSnoc | api/exercises/__init__.py:135-143 | one more entry extends only its own category's listing, by its summary |
| Registry.TwoCategoriesPartition | api/exercises/__init__.py:126-145 | with only the two body-region categories in play, the two listings together hold every entry once |
| Registry.RegistryCategoryKeys | api/exercises/__init__.py:19-80 | the registry is grouped under exactly the keys lower_body and upper_body |
| Registry.LowerBodyCount | api/exercises/__init__.py:19-80 | four entries are lower-body exercises |
| Registry.RegistryCategorySizes | api/exercises/__init__.py:19-80 | the grouped listing holds four lower-body and six upper-body exercises |
| NameMatcher.ExactMatchInFirst | api/app.py:327-332 | the exact match is the detector of the first entry whose lower-cased name equals the name, or whose key equals it with spaces as underscores; None means no entry matches |
| NameMatcher.TableLookup | api/app.py:396 | `name_mappings.get(key)` finds a detector exactly when some pair has the key, and returns a detector paired with it |
| NameMatcher.KeywordMatch | api/app.py:401-437 | the fallback finds a detector exactly when some key word occurs and its branch names one, and then names what that branch names |
| NameMatcher.RegistryGuardedRule | web_server.py:392-425 | the registry scan for a key word yields only what the branch ladder names for it |
| NameMatcher.GuardedRuleIsRule | web_server.py:392-425 | when some registry key contains the key word, the scan yields exactly the ladder's answer |
| NameMatcher.KeywordInSomeId | api/exercises/__init__.py:19-80 | each of the eight key words occurs in the key of some detector |
| NameMatcher.GuardedKeywordMatchIsKeywordMatch | web_server.py:389-429 | over a registry listing every detector, the web server's guarded keyword loop picks what the api keyword loop picks |
| NameMatcher.WebMatchEqualsAppMatch | web_server.py:306-429 | over a registry listing every detector, the whole web server rule picks the same detector as the api rule |
| NameMatcher.MatchedId | api/app.py:330 | the reported id is present exactly when a detector was picked, and reads back as that detector |
| NameMatcher.MatchedIdRegistered | api/app.py:439-446 | a reported id is a registry key, whose entry is the picked detector's |
| NameMatcher.MissingCharNotContained | api/app.py:401-437 | a string lacking one of a word's characters does not contain the word |
| NameMatcher.KeywordFallbackNone | api/app.py:401-437 | the fallback finds nothing exactly when the name contains none of squat, deadlift, curl, row, fly, calf and raise, and any "press" in it comes without shoulder, bench or chest |
| NameMatcher.SquatKeywordFirst | api/app.py:404-407 | a name containing "squat" always falls back to the squat detector |
| NameMatcher.DeadliftKeywordRule | api/app.py:414-419 | without squat or a qualified press, a deadlift falls back to the Romanian deadlift when "romanian", "rdl" or "stiff" occurs, else to the deadlift |
| NameMatcher.CalfNeverFrontRaise | api/app.py:429-434 | a name containing "calf" always finds a detector by the fallback, and never the front raise |
| NameMatcher.FrontRaiseRule | api/app.py:429-431 | the ladder names the front raise exactly for the key word "raise" without "calf" |
| NameMatcher.LegPressWordsAbsent | test_mapping.py:30 | none of the words the fallback tests occurs in "leg press" |
| NameMatcher.LegPressUntracked | test_mapping.py:30 | "leg press" gets no detector from the keyword fallback |
| NameMatcher.FindExactMatch | api/app.py:327-332 | the exact-match loop returns the first match over the registry |
| NameMatcher.FindKeywordMatch | api/app.py:401-437 | the api keyword loop with its eight key words returns the fallback's answer |
| NameMatcher.FindKeywordMatchIn | api/app.py:403-437 | the keyword loop over any key-word list returns the fallback's answer for that list |
| NameMatcher.MatchExerciseName | api/app.py:322-437 | the id the api handler reports for one name is the one its three-stage rule picks |
| NameMatcher.AppRow | api/app.py:439-446 | a row is trackable exactly when it has an id, that id reads back as the picked detector, name, sets and reps pass through, and a missing weight is 0 |
| NameMatcher.MapScannedExercise | api/app.py:322-446 | the api handler builds that row for one scanned exercise |
| NameMatcher.MapScannedExercises | api/app.py:320-446 | the api loop builds the rows of a whole scan, in order |
| NameMatcher.MapDetectedExercises | api/app.py:320-446 | the api handler maps a scan with the real registry and its own table |
| NameMatcher.AppRowsPointwise | api/app.py:320-446 | the api response has one row per scanned exercise, each that exercise's row |
| NameMatcher.TrackableRowRegistered | api/app.py:439-446 | a trackable api row names a registry key whose entry is the picked detector's |
| NameMatcher.FindGuardedRule | web_server.py:392-425 | the web server's registry scan for one key word returns the guarded ladder's answer |
| NameMatcher.FindGuardedKeywordMatch | web_server.py:389-429 | the web server's keyword loop, leaving at the first answer, returns the guarded fallback |
| NameMatcher.MatchExerciseNameGuarded | web_server.py:308-429 | the id the web server reports for one name is the one its rule picks |
| NameMatcher.WebRow | web_server.py:431-439 | a suggestion is matched exactly when it has an id, the id reads back as the picked detector, and name, sets, reps, weight and duration pass through unchanged |
| NameMatcher.WebRowAgreesWithAppRow | web_server.py:431-439 | over a registry listing every detector, the web suggestion carries the api row's id and matched flag |
| NameMatcher.SuggestScannedExercise | web_server.py:308-439 | the web server builds that suggestion for one scanned exercise |
| NameMatcher.SuggestScannedExercises | web_server.py:306-439 | the web server loop builds the suggestions of a whole scan, in order |
| NameMatcher.SuggestDetectedExercises | web_server.py:306-439 | the web server maps a scan with the registry and its own table |
| NameMatcher.WebRowsPointwise | web_server.py:306-439 | the web response has one suggestion per scanned exercise, each that exercise's suggestion |
| NameMatcher.HandlersAgree | web_server.py:306-439 | with the real registry and table, both handlers report the same id for any scanned exercise |
| NameMatcher.UploadsAgree | web_server.py:306-439 | for a whole upload, both responses have one row per exercise and agree row by row on the id |
| BaseExercise.AfterCompleteRep | api/exercises/base_exercise.py:112-124 | `_complete_rep` counts one rep, resets the cooldown counter, logs the next rep number with the grade of the best metrics, and changes nothing else |
| BaseExercise.Step | api/exercises/base_exercise.py:70-110 | one frame keeps the engine state well formed: a rep in progress always has a complete best |
| BaseExercise.Run | api/exercises/base_exercise.py:70-110 | a run of frames keeps the engine state well formed |
| BaseExercise.InitInvariant | api/exercises/base_exercise.py:37-45 | the state `__init__` leaves satisfies the reachable-state invariant: complementary flags, and one graded record per counted rep |
| BaseExercise.StepInvariant | api/exercises/base_exercise.py:70-110 | every frame preserves the reachable-state invariant |
| BaseExercise.RunInvariant | api/exercises/base_exercise.py:70-110 | every run of frames preserves the reachable-state invariant |
| BaseExercise.LoggedRepsGraded | api/exercises/base_exercise.py:112-124 | from a fresh detector, the i-th logged rep is numbered i+1 and carries a grade the profile can give a counted rep |
| BaseExercise.CountedRepGrades | api/exercises/base_exercise.py:112-124 | every counted squat, Romanian deadlift, row, curl or bench press is graded Excellent or Good, no counted shoulder press is Incomplete, and no counted dumbbell fly is Excellent or Good |
| BaseExercise.SkippedFrame | api/exercises/base_exercise.py:75-82 | a frame with an undetected joint only advances the cooldown counter |
| BaseExercise.StepCounting | api/exercises/base_exercise.py:75-98 | the count rises by at most one per frame, exactly when a rep in progress returns to the start after the cooldown; the counter is reset then and otherwise advances by one |
| BaseExercise.ReturnInsideCooldown | api/exercises/base_exercise.py:92-98 | a return to the start inside the cooldown clears the rep position and counts nothing |
| BaseExercise.EntrySeeds | api/exercises/base_exercise.py:92-106 | a rep starts exactly when the frame is in position with no rep in progress and a prior return; the best is seeded with that frame, and no frame both completes and starts a rep |
| BaseExercise.MergeWhileActive | api/exercises/base_exercise.py:108-110 | while a rep is in progress and the frame is not at the start, the best is merged with the frame |
| BaseExercise.BestKeptAfterRep | api/exercises/base_exercise.py:92-110 | the frame that completes a rep is never merged into the best |
| BaseExercise.QuietRun | api/exercises/base_exercise.py:75-98 | without a counted rep the cooldown counter advances by exactly one per frame |
| BaseExercise.RunCountMonotone | api/exercises/base_exercise.py:70-110 | the count never falls and rises by at most the number of frames |
| BaseExercise.CooldownSpacing | api/exercises/base_exercise.py:97-115 | two consecutive counted reps are at least `cooldown_frames` frames apart |
| BaseExercise.FirstReturnCounts | api/exercises/base_exercise.py:41 | the counter starts at the cooldown, so the first return of a fresh detector always counts |
| BaseExercise.InstructionOnReachable | api/exercises/base_exercise.py:144-153 | on reachable states the instruction is the in-position or the ready one, never the return one |
| BaseExercise.DeadliftLockoutFrameNotGraded | api/exercises/base_exercise.py:92-110 | a deadlift that locks out at 170 degrees in one frame after a best hip angle of 95 is logged "Incomplete lockout" |
| BaseExercise.CalfRaiseAnkleEntryShallow | api/exercises/base_exercise.py:92-110 | a calf raise entered on the ankle angle alone, with the heels at 0.02, is logged "Shallow - Raise higher" |
| BaseExercise.FrontRaiseArmEntryLow | api/exercises/base_exercise.py:92-110 | a front raise entered on the arm angle alone, with the wrists at 0.1 in the image, is logged "Low - Raise higher" |
| BaseExercise.FlyFullOpeningGradedShallow | api/exercises/base_exercise.py:92-110 | a fly that opens to 0.7 with straight elbows is logged "Shallow - Open wider", since the wide frame is the return and is never merged |
| BaseExercise.AddMissingNeverOverwrites | api/exercises/base_exercise.py:225-232 | the default merge adds the missing keys with the frame's values, keeps every present key's value, and is idempotent |
| BaseExercise.DefaultUpdateBestMetrics | api/exercises/base_exercise.py:225-232 | the loop of the default `update_best_metrics` computes that merge |
| BaseExercise.CalculateBilateralAngle | api/exercises/base_exercise.py:269-300 | None when neither side has its three joints, the one side's angle when only one has them, and otherwise the value equally far from both sides' angles |
| BaseExercise.ExerciseDetector.constructor | api/exercises/base_exercise.py:20-48 | a detector for the profile, in the initial state |
| BaseExercise.ExerciseDetector.CompleteRep | api/exercises/base_exercise.py:112-124 | the fields take the `_complete_rep` state and the returned record is the one appended to the log |
| BaseExercise.ExerciseDetector.OnJointsDetected | api/exercises/base_exercise.py:70-110 | the fields take the state of one step; a record is returned exactly when the count rose, and it is the one appended to the log |
| BaseExercise.ExerciseDetector.GetInstruction | api/exercises/base_exercise.py:144-153 | a detector in a valid state shows the in-position instruction during a rep and the ready one otherwise |
| EventHandlers.ParseAxis | api/core/event_handlers.py:64-68 | the axis is accepted exactly when it is "x", "y" or "z", each naming its coordinate; anything else is the ValueError |
| EventHandlers.Sign | api/core/event_handlers.py:91 | `np.sign`: 1, 0 or -1 as the value is positive, zero or negative |
| EventHandlers.RelativePosition | api/core/event_handlers.py:79-86 | a relative position exists exactly when both joints are detected |
| EventHandlers.CrossingFiresIff | api/core/event_handlers.py:88-111 | a crossing fires exactly when there is a previous position, the sign changed and the cooldown has elapsed; it names joint 1 as crossing over exactly when the new offset is positive; firing resets the counter, otherwise it advances |
| EventHandlers.CrossingLastPosition | api/core/event_handlers.py:82-113 | a frame with an undetected joint keeps the last position; a frame with both overwrites it, fired or not |
| EventHandlers.CrossingFirstFrameSilent | api/core/event_handlers.py:89 | the first frame with both joints present never fires |
| EventHandlers.CrossingQuietRun | api/core/event_handlers.py:70-114 | without a firing the counter advances by exactly one per frame |
| EventHandlers.CrossingSpacing | api/core/event_handlers.py:70-114 | two consecutive crossings are at least `cooldown_frames` frames apart |
| EventHandlers.CrossingTwoFlipsScenario | api/core/event_handlers.py:70-114 | signals +1, +1, -1, -1, +1 with a cooldown of 1 fire exactly twice, at the two sign flips |
| EventHandlers.JointCrossingHandler.constructor | api/core/event_handlers.py:41-68 | the handler stores its joints, axis and cooldown, with no previous position and the counter at the cooldown |
| EventHandlers.JointCrossingHandler.New | api/core/event_handlers.py:41-68 | construction fails exactly on an invalid axis; otherwise a fresh handler in its initial state |
| EventHandlers.JointCrossingHandler.OnJointsDetected | api/core/event_handlers.py:70-114 | the fields take the state of one crossing step, and the event text names the crossing direction exactly when it fires |
| EventHandlers.ProximityFiresIff | api/core/event_handlers.py:167-201 | fires exactly when a detected distance is under the threshold, the last valid frame was not close and the cooldown has elapsed; the close flag follows every valid frame, and the counter resets on firing and otherwise advances |
| EventHandlers.ProximityStaysClose | api/core/event_handlers.py:167-201 | once the edge flag is set, a run of close frames fires nothing and leaves the flag set |
| EventHandlers.ProximityCloseRunFiresAtMostOnce | api/core/event_handlers.py:167-201 | a run of close frames fires at most once, from any state |
| EventHandlers.ProximityRisingEdgeScenario | api/core/event_handlers.py:167-201 | distances 0.3, 0.05, 0.04, 0.3 against 0.1 fire once, at the first close frame |
| EventHandlers.JointProximityHandler.constructor | api/core/event_handlers.py:145-165 | the handler stores its threshold and cooldown (defaults 0.1 and 30), not close, with the counter at the cooldown |
| EventHandlers.JointProximityHandler.OnJointsDetected | api/core/event_handlers.py:167-201 | the fields and the result are those of one proximity step |
| EventHandlers.ThresholdComparisonModes | api/core/event_handlers.py:295-298 | "less" fires below the threshold, "greater" above it, and any other comparison never |
| EventHandlers.AngleFiresIff | api/core/event_handlers.py:275-314 | fires exactly when a detected angle meets the comparison, the last valid frame did not and the cooldown has elapsed; the crossed flag follows every valid frame, and the counter resets on firing and otherwise advances |
| EventHandlers.AngleEdgeLostInCooldown | api/core/event_handlers.py:301-313 | a rising edge inside the cooldown is lost: the flag is set anyway, so no later frame fires while the condition holds |
| EventHandlers.AngleStaysCrossed | api/core/event_handlers.py:301-313 | while the condition stays true after an edge, nothing more fires |
| EventHandlers.FreshDetectorsNotSuppressed | api/core/event_handlers.py:41-258 | all three handlers start with the counter at the cooldown, so the first eligible event of a fresh handler fires |
| EventHandlers.JointAngleHandler.constructor | api/core/event_handlers.py:232-258 | the handler stores its threshold, comparison and cooldown, not crossed, with the counter at the cooldown |
| EventHandlers.JointAngleHandler.OnJointsDetected | api/core/event_handlers.py:275-314 | the fields and the result are those of one angle step |
| SquatProfile.CalculateMetrics | api/exercises/squat.py:30-42 | `calculate_metrics` produces exactly the profile's keys: the knee angle as given, and a squat depth equally far from the two hip-to-knee height gaps |
| SquatProfile.PositionsDisjoint | api/exercises/squat.py:44-52 | no frame is both in the rep position and at the starting position |
| SquatProfile.AssessRepQuality | api/exercises/squat.py:54-62 | the grade is one of Excellent, Good, Fair or Shallow |
| SquatProfile.QualityBands | api/exercises/squat.py:54-62 | Excellent or Good exactly when the depth is under 0.15 (the in-position depth), Shallow exactly from 0.20 on |
| SquatProfile.QualityMonotone | api/exercises/squat.py:54-62 | a deeper squat (smaller depth) never gets a worse grade |
| SquatProfile.UpdateBestMetrics | api/exercises/squat.py:81-85 | `update_best_metrics`: the best depth becomes the smaller of the old best (default 1) and the frame's depth, the best changes exactly when the frame is deeper, and then it takes the frame's knee angle too; other keys are untouched; no key is ever dropped |
| SquatProfile.EntrySeedsBest | api/exercises/squat.py:44-52 | the frame that starts a rep seeds a best with a depth under 0.15 |
| SquatProfile.MergeKeepsBest | api/exercises/squat.py:81-85 | merging any computed frame keeps the best's invariant (a depth under 0.15) |
| SquatProfile.CountedQuality | api/exercises/squat.py:54-62 | a best that keeps the invariant is graded Excellent or Good |
| ShoulderPressProfile.CalculateMetrics | api/exercises/shoulder_press.py:30-42 | `calculate_metrics` produces exactly the profile's keys: the elbow angle as given, and a wrist height equally far from the two wrist-minus-shoulder offsets |
| ShoulderPressProfile.PositionsDisjoint | api/exercises/shoulder_press.py:44-52 | no frame is both in the rep position and at the starting position |
| ShoulderPressProfile.AssessRepQuality | api/exercises/shoulder_press.py:54-62 | the grade is one of Excellent, Good, Fair or Incomplete |
| ShoulderPressProfile.QualityBands | api/exercises/shoulder_press.py:54-62 | Incomplete exactly when the elbows never passed 160 degrees |
| ShoulderPressProfile.QualityMonotone | api/exercises/shoulder_press.py:54-62 | more extension and a larger height magnitude never give a worse grade |
| ShoulderPressProfile.UpdateBestMetrics | api/exercises/shoulder_press.py:82-87 | `update_best_metrics`: the largest elbow angle (default 0) and the smallest wrist height (default 1) are kept, independently; other keys are untouched; no key is ever dropped |
| ShoulderPressProfile.EntrySeedsBest | api/exercises/shoulder_press.py:44-52 | the frame that starts a rep seeds a best with an elbow angle above 160 |
| ShoulderPressProfile.MergeKeepsBest | api/exercises/shoulder_press.py:82-87 | merging any computed frame keeps the best's invariant (an elbow angle above 160) |
| ShoulderPressProfile.CountedQuality | api/exercises/shoulder_press.py:54-62 | a best that keeps the invariant is graded Excellent, Good or Fair |
| DeadliftProfile.CalculateMetrics | api/exercises/deadlift.py:38-66 | `calculate_metrics` produces exactly the profile's keys: hip and knee angles equally far from their two sides, and the torso angle as given |
| DeadliftProfile.PositionsDisjoint | api/exercises/deadlift.py:68-76 | no frame is both in the rep position and at the starting position |
| DeadliftProfile.AssessRepQuality | api/exercises/deadlift.py:78-84 | the grade is one of Excellent, Good or Incomplete |
| DeadliftProfile.QualityBands | api/exercises/deadlift.py:78-84 | Incomplete exactly when the best hip angle never passed 160 degrees |
| DeadliftProfile.QualityMonotone | api/exercises/deadlift.py:78-84 | a larger best hip angle never gives a worse grade |
| DeadliftProfile.UpdateBestMetrics | api/exercises/deadlift.py:95-100 | `update_best_metrics`: the largest hip angle (default 0) and the smallest torso angle (default 90) are kept; other keys are untouched; no key is ever dropped |
| DeadliftProfile.EntrySeedsBest | api/exercises/deadlift.py:68-76 | the frame that starts a rep seeds a best with the metric keys |
| DeadliftProfile.MergeKeepsBest | api/exercises/deadlift.py:95-100 | merging any computed frame keeps the best's invariant (the metric keys) |
| DeadliftProfile.CountedQuality | api/exercises/deadlift.py:78-84 | a best that keeps the invariant is graded any of its grades, Incomplete included (BaseExercise.DeadliftLockoutFrameNotGraded exhibits a counted Incomplete rep) |
| RomanianDeadliftProfile.CalculateMetrics | exercises/romanian_deadlift.py:39-59 | `calculate_metrics` produces exactly the profile's keys: the three angles as given, and a stretch equal to the torso lean with straight knees (above 160) and 0 otherwise |
| RomanianDeadliftProfile.PositionsDisjoint | exercises/romanian_deadlift.py:61-70 | no frame is both in the rep position and at the starting position |
| RomanianDeadliftProfile.AssessRepQuality | exercises/romanian_deadlift.py:72-80 | the grade is one of Excellent, Good, Knees bent or Shallow |
| RomanianDeadliftProfile.UpdateBestMetrics | exercises/romanian_deadlift.py:91-96 | `update_best_metrics`: the best stretch becomes the larger of the old best (default 0) and the frame's, the best changes exactly when the frame stretches further (a tie leaves it unchanged), and then it takes the frame's hip and knee angles too; other keys are untouched; no key is ever dropped |
| RomanianDeadliftProfile.EntrySeedsBest | exercises/romanian_deadlift.py:61-70 | the frame that starts a rep seeds a best with a stretch above 80 |
| RomanianDeadliftProfile.MergeKeepsBest | exercises/romanian_deadlift.py:91-96 | merging any computed frame keeps the best's invariant (a stretch above 80) |
| RomanianDeadliftProfile.CountedQuality | exercises/romanian_deadlift.py:72-80 | a best that keeps the invariant is graded Excellent or Good |
| CalfRaiseProfile.CalculateMetrics | api/exercises/calf_raise.py:38-54 | `calculate_metrics` produces exactly the profile's keys: the ankle angle as given, and a heel height that is the absolute mean of the two heel-to-ankle offsets |
| CalfRaiseProfile.PositionsDisjoint | api/exercises/calf_raise.py:56-64 | no frame is both in the rep position and at the starting position |
| CalfRaiseProfile.EitherDisjunctSuffices | api/exercises/calf_raise.py:56-64 | an ankle angle above 135 or a heel lift above 0.08 alone puts the lifter in position |
| CalfRaiseProfile.AssessRepQuality | api/exercises/calf_raise.py:66-72 | the grade is one of Excellent, Good or Shallow |
| CalfRaiseProfile.QualityBands | api/exercises/calf_raise.py:66-72 | Shallow exactly when the heels never rose past 0.08 |
| CalfRaiseProfile.QualityMonotone | api/exercises/calf_raise.py:66-72 | a higher heel lift never gives a worse grade |
| CalfRaiseProfile.UpdateBestMetrics | api/exercises/calf_raise.py:83-86 | `update_best_metrics`: the best heel lift becomes the larger of the old best (default 0) and the frame's, the best changes exactly when the heels rise higher (a tie leaves it unchanged), and then it takes the frame's ankle angle too; other keys are untouched; no key is ever dropped |
| CalfRaiseProfile.EntrySeedsBest | api/exercises/calf_raise.py:56-64 | the frame that starts a rep seeds a best with the keys and a non-negative heel height |
| CalfRaiseProfile.MergeKeepsBest | api/exercises/calf_raise.py:83-86 | merging any computed frame keeps the best's invariant (the keys and a non-negative heel height) |
| CalfRaiseProfile.CountedQuality | api/exercises/calf_raise.py:66-72 | a best that keeps the invariant is graded any of its grades, Shallow included (BaseExercise.CalfRaiseAnkleEntryShallow exhibits a counted Shallow rep) |
| BarbellRowProfile.CalculateMetrics | api/exercises/barbell_row.py:30-48 | `calculate_metrics` produces exactly the profile's keys: elbow and torso angles as given, and a pull distance equally far from the two sides |
| BarbellRowProfile.PositionsDisjoint | api/exercises/barbell_row.py:50-58 | no frame is both in the rep position and at the starting position and both need the bent-over torso band (45 to 80 degrees) |
| BarbellRowProfile.AssessRepQuality | api/exercises/barbell_row.py:60-66 | the grade is one of Excellent, Good or Partial |
| BarbellRowProfile.QualityBands | api/exercises/barbell_row.py:60-66 | Partial exactly when the elbows never flexed below 90 degrees |
| BarbellRowProfile.QualityMonotone | api/exercises/barbell_row.py:60-66 | a smaller elbow angle and a shorter pull never give a worse grade |
| BarbellRowProfile.UpdateBestMetrics | api/exercises/barbell_row.py:77-80 | `update_best_metrics`: the best elbow angle becomes the smaller of the old best (default 180) and the frame's, the best changes exactly when the elbow bends further (a tie leaves it unchanged), and then it takes the frame's pull distance too; other keys are untouched; no key is ever dropped |
| BarbellRowProfile.EntrySeedsBest | api/exercises/barbell_row.py:50-58 | the frame that starts a rep seeds a best with an elbow angle below 90 |
| BarbellRowProfile.MergeKeepsBest | api/exercises/barbell_row.py:77-80 | merging any computed frame keeps the best's invariant (an elbow angle below 90) |
| BarbellRowProfile.CountedQuality | api/exercises/barbell_row.py:60-66 | a best that keeps the invariant is graded Excellent or Good |
| BicepCurlProfile.CalculateMetrics | exercises/bicep_curl.py:29-45 | `calculate_metrics` produces exactly the profile's keys: the elbow angle as given, and a curl height that is the absolute mean of the two shoulder-to-wrist offsets |
| BicepCurlProfile.PositionsDisjoint | exercises/bicep_curl.py:47-54 | no frame is both in the rep position and at the starting position |
| BicepCurlProfile.AssessRepQuality | exercises/bicep_curl.py:55-61 | the grade is one of Excellent, Good or Partial |
| BicepCurlProfile.QualityBands | exercises/bicep_curl.py:55-61 | Partial exactly when the frame is not in the curled position |
| BicepCurlProfile.QualityMonotone | exercises/bicep_curl.py:55-61 | a smaller elbow angle never gives a worse grade |
| BicepCurlProfile.UpdateBestMetrics | exercises/bicep_curl.py:72-75 | `update_best_metrics`: the best elbow angle becomes the smaller of the old best (default 180) and the frame's, the best changes exactly when the elbow bends further (a tie leaves it unchanged), and then it takes the frame's curl height too; other keys are untouched; no key is ever dropped |
| BicepCurlProfile.EntrySeedsBest | exercises/bicep_curl.py:47-54 | the frame that starts a rep seeds a best with an elbow angle below 50 |
| BicepCurlProfile.MergeKeepsBest | exercises/bicep_curl.py:72-75 | merging any computed frame keeps the best's invariant (an elbow angle below 50) |
| BicepCurlProfile.CountedQuality | exercises/bicep_curl.py:55-61 | a best that keeps the invariant is graded Excellent or Good |
| BenchPressProfile.CalculateMetrics | exercises/bench_press.py:30-42 | `calculate_metrics` produces exactly the profile's keys: the elbow angle as given, and a press depth equally far from the two sides |
| BenchPressProfile.PositionsDisjoint | exercises/bench_press.py:44-51 | no frame is both in the rep position and at the starting position |
| BenchPressProfile.AssessRepQuality | exercises/bench_press.py:53-59 | the grade is one of Excellent, Good or Incomplete |
| BenchPressProfile.QualityBands | exercises/bench_press.py:53-59 | Incomplete exactly when the frame is not locked out |
| BenchPressProfile.QualityMonotone | exercises/bench_press.py:53-59 | a larger elbow angle never gives a worse grade |
| BenchPressProfile.UpdateBestMetrics | exercises/bench_press.py:70-72 | `update_best_metrics`: only the elbow angle is tracked, as a maximum (default 0); no other key is added or changed; no key is ever dropped |
| BenchPressProfile.EntrySeedsBest | exercises/bench_press.py:44-51 | the frame that starts a rep seeds a best with an elbow angle above 165 |
| BenchPressProfile.MergeKeepsBest | exercises/bench_press.py:70-72 | merging any computed frame keeps the best's invariant (an elbow angle above 165) |
| BenchPressProfile.CountedQuality | exercises/bench_press.py:53-59 | a best that keeps the invariant is graded Excellent or Good |
| FrontRaiseProfile.CalculateMetrics | api/exercises/front_raise.py:29-49 | `calculate_metrics` produces exactly the profile's keys: the arm angle as given, and a wrist height equally far from the two wrist-minus-shoulder offsets |
| FrontRaiseProfile.PositionsDisjoint | api/exercises/front_raise.py:51-59 | no frame is both in the rep position and at the starting position |
| FrontRaiseProfile.AssessRepQuality | api/exercises/front_raise.py:61-67 | the grade is one of Excellent, Good or Low |
| FrontRaiseProfile.QualityBands | api/exercises/front_raise.py:61-67 | Low exactly when the wrists stayed at -0.15 or lower in the image, so wrists that reached the in-position height are never Low |
| FrontRaiseProfile.QualityMonotone | api/exercises/front_raise.py:61-67 | higher wrists never give a worse grade |
| FrontRaiseProfile.UpdateBestMetrics | api/exercises/front_raise.py:78-81 | `update_best_metrics`: the best wrist height becomes the smaller of the old best (default 1) and the frame's, the best changes exactly when the wrists rise higher (a tie leaves it unchanged), and then it takes the frame's arm angle too; other keys are untouched; no key is ever dropped |
| FrontRaiseProfile.EntrySeedsBest | api/exercises/front_raise.py:51-59 | the frame that starts a rep seeds a best with the metric keys |
| FrontRaiseProfile.MergeKeepsBest | api/exercises/front_raise.py:78-81 | merging any computed frame keeps the best's invariant (the metric keys) |
| FrontRaiseProfile.CountedQuality | api/exercises/front_raise.py:61-67 | a best that keeps the invariant is graded any of its grades, Low included (BaseExercise.FrontRaiseArmEntryLow exhibits a counted Low rep) |
| DumbbellFlyProfile.CalculateMetrics | api/exercises/dumbbell_fly.py:30-52 | `calculate_metrics` produces exactly the profile's keys: wrist distance and elbow angle as given, and an arm length equally far from the two sides |
| DumbbellFlyProfile.PositionsDisjoint | api/exercises/dumbbell_fly.py:54-61 | no frame is both in the rep position and at the starting position |
| DumbbellFlyProfile.AssessRepQuality | api/exercises/dumbbell_fly.py:63-71 | the grade is one of Excellent, Good, Bent elbows or Shallow |
| DumbbellFlyProfile.UpdateBestMetrics | api/exercises/dumbbell_fly.py:82-87 | `update_best_metrics`: a frame replaces the best wrist distance and elbow angle only when it opens wider (default 0) with the elbows above 150; otherwise the best is untouched; no key is ever dropped |
| DumbbellFlyProfile.EntrySeedsBest | api/exercises/dumbbell_fly.py:54-61 | the frame that starts a rep seeds a best with the metric keys and an opening of at most the open threshold 0.5 |
| DumbbellFlyProfile.MergeKeepsBest | api/exercises/dumbbell_fly.py:82-87 | merging any computed frame that is not a return to the start (the engine merges no other) keeps the best's invariant (the metric keys and an opening of at most the open threshold 0.5) |
| DumbbellFlyProfile.CountedQuality | api/exercises/dumbbell_fly.py:63-71 | a best that keeps the invariant is graded Bent elbows or Shallow, never Excellent or Good |
| RomanianDeadliftProfile.QualityOrder | exercises/romanian_deadlift.py:72-80 | Excellent or Good exactly when the stretch passed 75, Knees bent exactly when it did not and the knees stayed under 160, and Excellent needs knees above 165 |
| RomanianDeadliftProfile.BentKneesNoStretch | exercises/romanian_deadlift.py:39-59 | on computed metrics, bent knees zero the stretch, so the grade is Knees bent or Shallow |
| DumbbellFlyProfile.QualityOrder | api/exercises/dumbbell_fly.py:63-71 | Excellent or Good exactly when the opening passed 0.5; elbows are criticised (Bent elbows) exactly when it did not and the elbows stayed under 140 |
| SquatProfile.ReadyInstruction | api/exercises/squat.py:70-79 | without `_last_metrics` the ready instruction is "READY - Squat down", and with it that text starts the instruction |
| ShoulderPressProfile.ReadyInstruction | api/exercises/shoulder_press.py:70-80 | without `_last_metrics` the ready instruction is "READY - Press overhead", and with it that text starts the instruction |
| Profiles.CooldownFrames | api/exercises/squat.py:19 | every detector passes a cooldown of 15, 20 or 30 frames to the base constructor |
| Profiles.MetricsHaveKeys | api/exercises/base_exercise.py:84-89 | computed metrics carry every key the profile's position tests read |
| Profiles.PositionsDisjoint | api/exercises/base_exercise.py:88-106 | in every profile no frame is both in the rep position and at the start |
| Profiles.UpdateBestMetrics | api/exercises/base_exercise.py:108-110 | every profile's merge only adds or overwrites keys |
| Profiles.InstructionsDistinct | api/exercises/base_exercise.py:144-153 | each profile's three instructions are pairwise different, so the instruction shows the state |
| Profiles.BestInvariantHasKeys | api/exercises/base_exercise.py:108-118 | a best that keeps the profile's invariant has every key the grading reads |
| Profiles.EntrySeedsBest | api/exercises/base_exercise.py:101-105 | the frame that starts a rep seeds a best keeping the profile's invariant |
| Profiles.MergeKeepsBest | api/exercises/base_exercise.py:108-110 | the profile's merge keeps the invariant on every frame the engine merges, one that is not a return to the start |
| Profiles.CountedQuality | api/exercises/base_exercise.py:118 | a best keeping the invariant gets one of the profile's counted grades |
| LegacySquat.StandingExcludesFullSquat | squat.py:102-110 | with an angle threshold of at most 160 or a depth threshold of at most 0.25, no frame is both standing and a full squat |
| LegacySquat.SquatQuality | squat.py:331-345 | the label is the depth band followed by the angle note, and it is the bare band exactly when the minimum angle is 90 or more |
| LegacySquat.DeepSquatBand | squat.py:331-336 | a minimum depth under 0.15 always lands in the ATG or the Full depth band |
| LegacySquat.DepthBandMonotone | squat.py:331-340 | a deeper squat never lands in a shallower band |
| LegacySquat.Step | squat.py:112-167 | one frame keeps the state well formed: a squat in progress has both minima |
| LegacySquat.MissingInputNoChange | squat.py:121-122 | a frame with a missing knee angle or depth changes nothing |
| LegacySquat.StepCounting | squat.py:138-152 | the count rises by at most one, exactly when a squat in progress reaches the standing position, and the completed squat is logged with its minima |
| LegacySquat.EntrySeedsMinima | squat.py:154-159 | a squat starts exactly on a full-squat frame after a return to standing, and seeds both minima with that frame |
| LegacySquat.MinimaNonIncreasing | squat.py:162-167 | while the squat continues, the tracked minima never increase |
| LegacySquat.OverlappingThresholdsCompleteAndStart | squat.py:138-159 | the two `if` blocks are independent: with an angle threshold above 160 and a depth threshold above 0.25, one frame both completes a squat and starts the next |
| LegacySquat.StepInvariant | squat.py:112-167 | every frame keeps the reachable-state invariant: complementary flags and one record per squat, graded from minima that met both full-squat thresholds |
| LegacySquat.Run | squat.py:112-167 | a run of frames keeps the state well formed |
| LegacySquat.RunInvariant | squat.py:112-167 | every run of frames keeps the invariant |
| LegacySquat.LoggedSquatsDeep | squat.py:19-52 | with the default thresholds (100 degrees, 0.15), every logged squat is labelled ATG or Full depth |
| LegacySquat.LegacySquatDetector.constructor | squat.py:19-52 | the detector stores its thresholds, with a cooldown of 30 and the initial state |
| LegacySquat.LegacySquatDetector.OnJointsDetected | squat.py:112-167 | the fields take the state of one step; a record is returned exactly when the count rose, and it is the one appended to the log |
| LegacyShoulderPress.WristHeight | shoulder_press.py:82-103 | present exactly when all four joints are, the bilateral average of the two wrist-minus-shoulder offsets, and negative when both wrists are above their shoulders |
| LegacyShoulderPress.StartExcludesFullPress | shoulder_press.py:111-121 | with an elbow threshold of at least 140 or a height threshold of at least 0.15, no frame is both at the start and a full press |
| LegacyShoulderPress.PressQuality | shoulder_press.py:349-356 | one of four labels: Excellent exactly above 170 degrees with a height magnitude above 0.35, Incomplete exactly when 160 and 0.25 are not both passed |
| LegacyShoulderPress.QualityMonotone | shoulder_press.py:349-356 | more extension and a larger height magnitude never lower the label |
| LegacyShoulderPress.Step | shoulder_press.py:123-185 | one frame keeps the state well formed: a press in progress has both maxima |
| LegacyShoulderPress.MissingInputNoChange | shoulder_press.py:132-133 | a frame with a missing elbow angle or wrist height changes nothing |
| LegacyShoulderPress.StepCounting | shoulder_press.py:150-178 | the count rises by at most one, exactly on a full-press frame while out of the press position or on a frame that is both a return and a full press; the counting frame seeds the maxima, a return that is not a full press only resets the flags, and with an elbow threshold of at least 140 or a height threshold of at least 0.15 only the first case remains |
| LegacyShoulderPress.OverlappingThresholdsReturnAndCount | shoulder_press.py:150-178 | with thresholds of 130 degrees and 0.1, one frame at 135 degrees returns the arms and counts a new press |
| LegacyShoulderPress.MaximaMonotone | shoulder_press.py:181-185 | while the press is held, the best extension never drops and the best height never lowers |
| LegacyShoulderPress.StepInvariant | shoulder_press.py:123-185 | every frame keeps the reachable-state invariant: complementary flags and one record per press, graded from a frame that met both full-press thresholds |
| LegacyShoulderPress.Run | shoulder_press.py:123-185 | a run of frames keeps the state well formed |
| LegacyShoulderPress.RunInvariant | shoulder_press.py:123-185 | every run of frames keeps the invariant |
| LegacyShoulderPress.LoggedPressesAtLeastFair | shoulder_press.py:19-55 | with the default thresholds (160 degrees, 0.3), no logged press is labelled Incomplete |
| LegacyShoulderPress.LegacyShoulderPressDetector.constructor | shoulder_press.py:19-55 | the detector stores its thresholds, with a cooldown of 15 and the initial state |
| LegacyShoulderPress.LegacyShoulderPressDetector.OnJointsDetected | shoulder_press.py:123-185 | the fields take the state of one step; a record is returned exactly when the count rose, and it is the one appended to the log |
| TrackerStats.TruncateToInt | api/app.py:190 | Python `int()` of a float truncates toward zero |
| TrackerStats.AppGetStats | api/app.py:176-213 | an inactive tracker reports zeros and a null plan; an active one reports the rep count, one set per ten reps, and the plan attributes present, left out when there are none |
| TrackerStats.AppDurationZero | api/app.py:190 | no detector has `start_time`, so two clock readings less than a second apart give a duration of 0 |
| TrackerStats.SetsOfTen | api/app.py:187 | the set count is the rep count divided by ten, and it rises exactly at each tenth rep |
| TrackerStats.WebGetStats | web_server.py:174-227 | an inactive tracker reports "Not started" and the start prompt; an active one reports the rep count, the detector's instruction, both flags, the plan, and the best metrics exactly when there are some |
| TrackerStats.StatusBranches | web_server.py:190-198 | the status names its branch: "In position" during a rep, "Must return" without a return, "Ready" otherwise, and "Not started" only when inactive |
| TrackerStats.NeverMustReturn | web_server.py:190-198 | on any state the counting engine reaches, the status is never "Must return" and the return instruction is never shown |
| TrackerStats.RunNeverMustReturn | web_server.py:190-198 | a detector stepped from its initial state through any frames never reports "Must return" |
| TrackerStats.RegisteredDisplayName | web_server.py:186-187 | a registered id is shown under the detector's own name |
| TrackerStats.UnregisteredDisplayName | web_server.py:186-187 | an id no detector has is shown in title case |
| TrackerStats.ServersAgreeOnReps | web_server.py:174-227 | the two servers report the same rep count, and both report nothing for an inactive tracker |
| WorkoutParser.SkipSpaces | api/services/fitbod_scanner.py:86 | `\s*`: the position of the first non-space at or after `i`, with only white space skipped |
| WorkoutParser.SkipNonDigits | api/services/fitbod_scanner.py:86 | `[^\d]*`: the position of the first digit at or after `i`, with only non-digits skipped |
| WorkoutParser.SkipDigits | api/services/fitbod_scanner.py:86 | the end of the digit run at `i`: only digits skipped, and no digit at the stop |
| WorkoutParser.SkipLowers | api/services/fitbod_scanner.py:41 | `[a-z]*`: only lower-case letters skipped, and none at the stop |
| WorkoutParser.SkipSeparators | api/services/fitbod_scanner.py:86 | `[+»×xX*\-«>°:]*` (colon only in the first pattern): only separators skipped, and none at the stop |
| WorkoutParser.SkipDotsAndSpaces | api/services/fitbod_scanner.py:115 | `[.\s]*`: only dots and white space skipped |
| WorkoutParser.Pow10 | api/services/fitbod_scanner.py:86 | the scale of a decimal fraction is at least one |
| WorkoutParser.Digits | api/services/fitbod_scanner.py:86 | `(\d+)`: a match consumes at least one character and stays inside the line |
| WorkoutParser.Number | api/services/fitbod_scanner.py:86 | `(\d+(?:\.\d+)?)` read by `float`: a match consumes input and the value is never negative |
| WorkoutParser.WordAt | api/services/fitbod_scanner.py:86 | a three-letter unit word with an optional plural `s`: a match reads the given letters and consumes three or four characters inside the line |
| WorkoutParser.SetsWord | api/services/fitbod_scanner.py:86 | `[Ss]ets?`: a match consumes input and stays inside the line |
| WorkoutParser.RepsWord | api/services/fitbod_scanner.py:86 | `[Rr]eps?`: a match consumes input and stays inside the line |
| WorkoutParser.Separators | api/services/fitbod_scanner.py:86 | a non-empty separator run: a match consumes input |
| WorkoutParser.SetsPrefix | api/services/fitbod_scanner.py:86-89 | the prefix shared by the five data patterns ends inside the line |
| WorkoutParser.DurationText | api/services/fitbod_scanner.py:110 | `f"{minutes}:{seconds:02d}"`: digits spelling the minutes, a colon, then at least two digits spelling the seconds (exactly two below 100) |
| WorkoutParser.DurationTextReadsBack | api/services/fitbod_scanner.py:100-110 | reading a rendered duration back with `(\d+):(\d+)` recovers its minutes and seconds and consumes the whole text |
| WorkoutParser.ClockReadsDigitsColonDigits | api/services/fitbod_scanner.py:100-106 | a line that is a digit run, a colon and a digit run is read by `(\d+):(\d+)` as the values of the two runs, consuming all of it |
| WorkoutParser.DigitRunEnds | api/services/fitbod_scanner.py:100-106 | `\d+` stops exactly at the first non-digit after the run |
| WorkoutParser.Clock | api/services/fitbod_scanner.py:101-106 | `(\d+):(\d+)`: a match consumes input and stays inside the line |
| WorkoutParser.ParseData | api/services/fitbod_scanner.py:85-152 | the first of the five patterns that matches fixes the record: it carries the name, has one of the five shapes, its set count is the first number of the line, its weight is never negative, and its duration is the `minutes:SS` rendering of a `(\d+):(\d+)` clock read from the line |
| WorkoutParser.SetsTime | api/services/fitbod_scanner.py:98-110 | pattern 2: a record with a duration renders the minutes and seconds of a clock read from the line |
| WorkoutParser.SetsTimeWeight | api/services/fitbod_scanner.py:112-127 | pattern 3: a record with a duration renders the minutes and seconds of a clock read from the line |
| WorkoutParser.TitleWord | api/services/fitbod_scanner.py:41 | `[A-Z][a-z]+`: at least two characters, the first upper case |
| WorkoutParser.MoreTitleWords | api/services/fitbod_scanner.py:41 | the repeated `\s+[A-Z][a-z]+` ends inside the line and never before it starts |
| WorkoutParser.TitleWordsAt | api/services/fitbod_scanner.py:41 | two or more title-case words: a match consumes input |
| WorkoutParser.FirstTitleWords | api/services/fitbod_scanner.py:41-42 | the first group of the name search is at least two characters and starts upper case |
| WorkoutParser.SpacesThenUp | api/services/fitbod_scanner.py:46 | `\s+[Uu]p`: a match consumes input |
| WorkoutParser.SingleWordAt | api/services/fitbod_scanner.py:46-47 | the three single-word alternatives tried in order: a match consumes input |
| WorkoutParser.NameCandidate | api/services/fitbod_scanner.py:27-60 | blank, header and skip-keyword lines offer no name; an offered name is longer than four characters and is not "Body Targets" or "Start Workout"; "sit up" in any case becomes "Sit Up" |
| WorkoutParser.FinalName | api/services/fitbod_scanner.py:66-70 | a name containing "jump rope" in any case becomes "Jump Rope", any other is kept |
| WorkoutParser.LookaheadFrom | api/services/fitbod_scanner.py:75-158 | a record found by the lookahead carries the name and has one of the five shapes |
| WorkoutParser.Lookahead | api/services/fitbod_scanner.py:74-158 | a record found after a name line carries the name and has one of the five shapes |
| WorkoutParser.LookaheadCases | api/services/fitbod_scanner.py:75-158 | in closed form: the data of the first of the next two lines that has five characters, a digit and a matching pattern, else nothing |
| WorkoutParser.ParseFromStep | api/services/fitbod_scanner.py:26-158 | what each line contributes: nothing without a name, nothing for a seen name or one without data, else its record, with the name added to the seen set |
| WorkoutParser.ParseFromFresh | api/services/fitbod_scanner.py:19-157 | the records avoid the names already seen and never repeat a name |
| WorkoutParser.FreshCons | api/services/fitbod_scanner.py:156-157 | a record with an unseen name followed by records fresh for the larger seen set is fresh |
| WorkoutParser.ParseNoDuplicates | api/services/fitbod_scanner.py:16-160 | no two records of a parse share an exercise name |
| WorkoutParser.FromLinesCons | api/services/fitbod_scanner.py:155-158 | a record from line `i` followed by records from later lines all come from lines from `i` on |
| WorkoutParser.FromLinesWeaken | api/services/fitbod_scanner.py:26-28 | records from lines after `i` come from lines from `i` on |
| WorkoutParser.ParseFromProvenance | api/services/fitbod_scanner.py:26-158 | every record comes from a line offering a name, and is exactly what the lookahead after that line finds for the normalised name |
| WorkoutParser.ParseRecordsFromLines | api/services/fitbod_scanner.py:16-160 | every record of a parse has one of the five shapes and comes from some line of the text |
| WorkoutParser.NameWithoutDataNotSeen | api/services/fitbod_scanner.py:154-158 | a name without data is not marked seen, so a later line with the same name can still be emitted |
| WorkoutParser.ExtractExerciseName | api/services/fitbod_scanner.py:27-60 | the per-line filtering, search and normalisation offer exactly the candidate name |
| WorkoutParser.FindExerciseData | api/services/fitbod_scanner.py:74-158 | the two-step lookahead loop finds exactly the lookahead record |
| WorkoutParser.PrefixExample | api/services/fitbod_scanner.py:86 | on "3 sets x 10 reps x 20 kg" the prefix reads 3 sets |
| WorkoutParser.RepsExample | api/services/fitbod_scanner.py:86 | on the same line the separator and the rep count 10 are read |
| WorkoutParser.WeightExample | api/services/fitbod_scanner.py:86 | on the same line the rep word and the second separator are read |
| WorkoutParser.KiloExample | api/services/fitbod_scanner.py:86 | on the same line the weight 20.0 is read and followed by `k` |
| WorkoutParser.DataSampleDataLineExample | api/services/fitbod_scanner.py:85-97 | the same line gives 3 sets of 10 reps at 20 kg under the first pattern |
| WorkoutParser.NameLineExample | api/services/fitbod_scanner.py:41-42 | "Goblet Squat" is taken whole by the title-case pattern |
| WorkoutParser.ParseLine | api/services/fitbod_scanner.py:27-158 | one iteration of the line loop: what it appends, followed by the parse of the rest from its seen set, is the parse from this line |
| WorkoutParser.ParseExtractedTextAdvanced | api/services/fitbod_scanner.py:16-160 | the loop returns exactly the parse of the text, and no two of its records share a name |

## Left out

- Pose estimation, video capture and colour conversion are foreign library calls (MediaPipe, OpenCV). Frames enter the model as metric maps, or as maps of the detected joints.
- The geometry (`calculate_angle` with arccos, `calculate_distance_2d/3d` and `np.linalg.norm` with square roots, `calculate_torso_angle`) needs floating point. Angles and distances are real-valued inputs. The metrics themselves are real numbers, with no rounding.
- BaseExercise.CalculateBilateralAngle: takes a map of detected joint values. The case where Python would crash is not modelled: a key that is present but whose value is None raises in arithmetic.
- Drawing on frames (`_draw_feedback`, `_draw_completion_feedback`), console output and sounds are not modelled.
- File I/O is not modelled: `_initialize_log`, the writes of `_log_rep`, `_log_squat` and `_log_press`, and the timestamp formatting. What is logged is an append-only sequence of (rep index, quality) records.
- Wall-clock durations (`datetime.now()`, rep and press durations) are not modelled. In the statistics, the two clock readings of `get_stats` are parameters.
- TrackerStats.AppGetStats: the duration is `int(first reading - second reading)`. It is 0 whenever the two readings are less than a second apart (AppDurationZero), but the model does not say how far apart they are.
- Flask routes, threads and locks, request parsing, and the saving and deleting of uploads are not modelled. `WebTracker.start` and `stop` are not modelled either: the tracker is a value holding what they left behind, and the plan attributes are inputs.
- The OCR stack of the scanner is not modelled (`preprocess_image`, `extract_text`, Tesseract, `process_uploaded_*`, the JSON files). The parser starts from the extracted text.
- WorkoutParser: the regular expressions are written as deterministic scanners. Each pattern's greedy steps are forced by the character classes, so no backtracking is modelled.
- Text: `lower`, `title`, `strip`, `isdigit` and `\s` are defined on ASCII only. White space is the ASCII set Python strips (space, tab, line feed, carriage return, vertical tab, form feed and the separators 0x1C to 0x1F); Unicode case mapping and non-ASCII white space are not modelled.
- Registry: the `description` of each entry is looked up from its exercise (`Registry.Description`) rather than held as a field of the entry. Detector classes are represented by the profile they construct.
- The registry imports the Romanian deadlift, bicep curl and bench press detectors from `api.exercises` (api/exercises/__init__.py:9-13); those three files are not part of this model. Their profiles follow exercises/romanian_deadlift.py, exercises/bicep_curl.py and exercises/bench_press.py instead. These subclass `exercises.base_exercise`, which is not part of this model either, and all three run under the engine of api/exercises/base_exercise.py.
- web_server.py imports the registry of a top-level `exercises` package, which is not part of this model. It is taken to be the registry of `api/exercises/__init__.py`.
- NameMatcher: the matcher is parameterised by the registry and the name table that it consults. Only the instance built from the real registry and table is tied to the source's constants.
- NameMatcher.LegPressUntracked: covers only the keyword stage. It states that "press" without "shoulder", "bench" or "chest" yields no id.
- Utils.MovingAverage.Add: a window size below 1 would make Python raise ZeroDivisionError on the first `add`. The model returns None for that average.
- Utils.MapValue: returns None where Python would divide by zero (`from_min == from_max`).
- EventHandlers.JointCrossingHandler.New: the source raises ValueError for an unknown axis after setting its attributes. The model checks the axis first and returns an error result; no half-built handler exists.
- TrackerStats.WebGetStats: `not self.detector` is read as "no detector attached". Python object truthiness is not modelled.
- The demo handlers of `examples.py`, the runtime patching in `WebExerciseDetector`, and the scripts (`verify_setup.py`, `test_mapping.py`, `run.py`, the `main` functions) are not part of this model.
