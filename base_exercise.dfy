/**
 * The rep-counting state machine of api/exercises/base_exercise.py.
 *
 * Each frame brings either the profile's metrics or nothing (some required
 * joint undetected). With metrics, the engine applies, in this order: return
 * to the start (which counts a rep once the cooldown has elapsed), entry into
 * the rep position (which seeds the best metrics), and merging of the best
 * metrics while the rep is in progress. The rep log is an append-only
 * sequence of (rep number, quality) records.
 */
module BaseExercise {
  import opened Wrappers
  import opened Utils
  import opened MetricMaps
  import opened Profiles

  /** One line of the rep log: the rep number and its quality label. */
  datatype RepRecord = RepRecord(repNumber: nat, quality: string)

  datatype EngineState = EngineState(
    repCount: nat,
    inRepPosition: bool,
    returnedToStart: bool,
    framesSinceLastRep: int,
    currentMetrics: Metrics,
    bestMetrics: Metrics,
    log: seq<RepRecord>)

  /** State after `__init__`: nothing counted, ready, and the counter already at the cooldown. */
  function Init(ex: Exercise): EngineState {
    EngineState(0, false, true, CooldownFrames(ex), map[], map[], [])
  }

  /** A frame: the profile's metrics, or None when a required joint is undetected. */
  type Frame = Option<Metrics>

  predicate FrameOk(ex: Exercise, f: Frame) {
    f.Some? ==> IsMetrics(ex, f.value)
  }

  /** What a step needs to run without a missing key: a rep in progress has a complete best. */
  predicate WellFormed(ex: Exercise, s: EngineState) {
    s.inRepPosition ==> HasKeys(ex, s.bestMetrics)
  }

  /** `_complete_rep`: count, reset the cooldown counter, and log the grade of the best metrics (which stay). */
  function AfterCompleteRep(ex: Exercise, s: EngineState): (t: EngineState)
    requires HasKeys(ex, s.bestMetrics)
    ensures t.repCount == s.repCount + 1 && t.framesSinceLastRep == 0
    ensures t.log == s.log + [RepRecord(s.repCount + 1, AssessRepQuality(ex, s.bestMetrics))]
    ensures t.bestMetrics == s.bestMetrics && t.inRepPosition == s.inRepPosition && t.returnedToStart == s.returnedToStart
    ensures t.currentMetrics == s.currentMetrics
  {
    s.(repCount := s.repCount + 1,
       framesSinceLastRep := 0,
       log := s.log + [RepRecord(s.repCount + 1, AssessRepQuality(ex, s.bestMetrics))])
  }

  /** One call of `on_joints_detected`. */
  function Step(ex: Exercise, s: EngineState, f: Frame): (t: EngineState)
    requires WellFormed(ex, s) && FrameOk(ex, f)
    ensures WellFormed(ex, t)
  {
    var n := s.framesSinceLastRep + 1;
    match f
    case None => s.(framesSinceLastRep := n)
    case Some(m) =>
      MetricsHaveKeys(ex, m);
      var inPosition := IsInRepPosition(ex, m);
      var atStart := IsAtStartingPosition(ex, m);
      var s1 := s.(framesSinceLastRep := n, currentMetrics := m);
      if atStart && s.inRepPosition then
        var s2 := s1.(returnedToStart := true, inRepPosition := false);
        if n >= CooldownFrames(ex) then AfterCompleteRep(ex, s2) else s2
      else if inPosition && !s.inRepPosition && s.returnedToStart then
        s1.(inRepPosition := true, returnedToStart := false, bestMetrics := m)
      else if s.inRepPosition then
        s1.(bestMetrics := UpdateBestMetrics(ex, m, s.bestMetrics))
      else
        s1
  }

  predicate AllFramesOk(ex: Exercise, fs: seq<Frame>) {
    forall i :: 0 <= i < |fs| ==> FrameOk(ex, fs[i])
  }

  /** The state after a sequence of frames. */
  function Run(ex: Exercise, s: EngineState, fs: seq<Frame>): (t: EngineState)
    requires WellFormed(ex, s) && AllFramesOk(ex, fs)
    ensures WellFormed(ex, t)
    decreases |fs|
  {
    if fs == [] then s else Run(ex, Step(ex, s, fs[0]), fs[1..])
  }

  /**
   * The reachable-state invariant: the two flags are complements, a rep in
   * progress has a best that satisfies the profile's invariant, and the log
   * holds one record per counted rep, numbered from 1, each with a grade the
   * profile can give a counted rep.
   */
  predicate Invariant(ex: Exercise, s: EngineState) {
    && s.returnedToStart == !s.inRepPosition
    && (s.inRepPosition ==> BestInvariant(ex, s.bestMetrics) && HasKeys(ex, s.bestMetrics))
    && |s.log| == s.repCount
    && (forall i :: 0 <= i < |s.log| ==> s.log[i].repNumber == i + 1 && CountedGrade(ex, s.log[i].quality))
  }

  lemma InitInvariant(ex: Exercise)
    ensures Invariant(ex, Init(ex))
  {
  }

  lemma StepInvariant(ex: Exercise, s: EngineState, f: Frame)
    requires Invariant(ex, s) && FrameOk(ex, f)
    ensures Invariant(ex, Step(ex, s, f))
  {
    if f.Some? {
      var m := f.value;
      MetricsHaveKeys(ex, m);
      if IsAtStartingPosition(ex, m) && s.inRepPosition {
        CountedQuality(ex, s.bestMetrics);
      } else if IsInRepPosition(ex, m) && !s.inRepPosition && s.returnedToStart {
        EntrySeedsBest(ex, m);
      } else if s.inRepPosition {
        MergeKeepsBest(ex, m, s.bestMetrics);
        BestInvariantHasKeys(ex, UpdateBestMetrics(ex, m, s.bestMetrics));
      }
    }
  }

  lemma {:induction false} RunInvariant(ex: Exercise, s: EngineState, fs: seq<Frame>)
    requires Invariant(ex, s) && AllFramesOk(ex, fs)
    ensures Invariant(ex, Run(ex, s, fs))
    decreases |fs|
  {
    if fs != [] {
      StepInvariant(ex, s, fs[0]);
      RunInvariant(ex, Step(ex, s, fs[0]), fs[1..]);
    }
  }

  /** Every rep logged from a fresh detector carries one of the profile's counted grades. */
  lemma LoggedRepsGraded(ex: Exercise, fs: seq<Frame>, i: int)
    requires AllFramesOk(ex, fs)
    requires 0 <= i < |Run(ex, Init(ex), fs).log|
    ensures Run(ex, Init(ex), fs).log[i].repNumber == i + 1
    ensures CountedGrade(ex, Run(ex, Init(ex), fs).log[i].quality)
  {
    InitInvariant(ex);
    RunInvariant(ex, Init(ex), fs);
  }

  /**
   * Concretely: every counted squat, Romanian deadlift, row, curl or bench
   * press is graded Excellent or Good, no counted shoulder press is graded
   * Incomplete, and no counted fly is graded Excellent or Good.
   */
  lemma CountedRepGrades(ex: Exercise, fs: seq<Frame>, i: int)
    requires AllFramesOk(ex, fs)
    requires 0 <= i < |Run(ex, Init(ex), fs).log|
    ensures var q := Run(ex, Init(ex), fs).log[i].quality;
      && (ex == Squat ==> q == "Excellent - ATG (Ass to Grass)" || q == "Good - Full depth / Parallel")
      && (ex == RomanianDeadlift ==> q == "Excellent - Deep stretch, straight legs" || q == "Good - Good hamstring stretch")
      && (ex == BarbellRow ==> q == "Excellent - Full contraction" || q == "Good - Solid pull")
      && (ex == BicepCurl ==> q == "Excellent - Full contraction" || q == "Good - Full curl")
      && (ex == BenchPress ==> q == "Excellent - Full lockout" || q == "Good - Nearly locked")
      && (ex == ShoulderPress ==> q != "Incomplete - Extend more")
      && (ex == DumbbellFly ==> q == "Bent elbows - Keep arms straighter" || q == "Shallow - Open wider")
  {
    LoggedRepsGraded(ex, fs, i);
  }

  /** A frame with a missing joint only advances the cooldown counter. */
  lemma SkippedFrame(ex: Exercise, s: EngineState)
    requires WellFormed(ex, s)
    ensures Step(ex, s, None) == s.(framesSinceLastRep := s.framesSinceLastRep + 1)
  {
  }

  /**
   * The count goes up by at most one per frame, and only when the rep in
   * progress returns to the start with the cooldown elapsed; the counter is
   * reset exactly then and otherwise advances by one.
   */
  lemma StepCounting(ex: Exercise, s: EngineState, f: Frame)
    requires WellFormed(ex, s) && FrameOk(ex, f)
    ensures var t := Step(ex, s, f);
      && (t.repCount == s.repCount || t.repCount == s.repCount + 1)
      && (t.repCount == s.repCount + 1 <==>
            f.Some? && HasKeys(ex, f.value) && IsAtStartingPosition(ex, f.value) && s.inRepPosition
            && s.framesSinceLastRep + 1 >= CooldownFrames(ex))
      && (t.repCount == s.repCount + 1 ==> s.inRepPosition && !t.inRepPosition && t.framesSinceLastRep == 0)
      && (t.repCount == s.repCount ==> t.framesSinceLastRep == s.framesSinceLastRep + 1)
  {
    if f.Some? {
      MetricsHaveKeys(ex, f.value);
    }
  }

  /** A return to the start inside the cooldown clears the rep position but counts nothing. */
  lemma ReturnInsideCooldown(ex: Exercise, s: EngineState, m: Metrics)
    requires WellFormed(ex, s) && IsMetrics(ex, m) && HasKeys(ex, m)
    requires s.inRepPosition && IsAtStartingPosition(ex, m)
    requires s.framesSinceLastRep + 1 < CooldownFrames(ex)
    ensures var t := Step(ex, s, Some(m));
      t.repCount == s.repCount && t.returnedToStart && !t.inRepPosition && t.log == s.log
  {
  }

  /**
   * Entry into the rep position needs the position, no rep in progress and a
   * prior return; it seeds the best with the frame's metrics. Because of the
   * `elif` chain no frame both completes and starts a rep.
   */
  lemma EntrySeeds(ex: Exercise, s: EngineState, m: Metrics)
    requires WellFormed(ex, s) && IsMetrics(ex, m) && HasKeys(ex, m)
    ensures var t := Step(ex, s, Some(m));
      && (!s.inRepPosition && t.inRepPosition <==> IsInRepPosition(ex, m) && !s.inRepPosition && s.returnedToStart)
      && (!s.inRepPosition && t.inRepPosition ==> t.bestMetrics == m && t.repCount == s.repCount)
      && (t.repCount > s.repCount ==> !t.inRepPosition)
  {
  }

  /** While a rep is in progress and the frame is not at the start, the best is merged with the frame. */
  lemma MergeWhileActive(ex: Exercise, s: EngineState, m: Metrics)
    requires WellFormed(ex, s) && IsMetrics(ex, m) && HasKeys(ex, m)
    requires s.inRepPosition && !IsAtStartingPosition(ex, m)
    ensures Step(ex, s, Some(m)).bestMetrics == UpdateBestMetrics(ex, m, s.bestMetrics)
    ensures Step(ex, s, Some(m)).inRepPosition
  {
    PositionsDisjoint(ex, m);
  }

  /** Counting a rep leaves the best metrics as they were; the frame that completes the rep is never merged. */
  lemma BestKeptAfterRep(ex: Exercise, s: EngineState, f: Frame)
    requires WellFormed(ex, s) && FrameOk(ex, f)
    requires Step(ex, s, f).repCount > s.repCount
    ensures Step(ex, s, f).bestMetrics == s.bestMetrics
  {
  }

  /** Without a counted rep, the cooldown counter advances by one per frame. */
  lemma {:induction false} QuietRun(ex: Exercise, s: EngineState, fs: seq<Frame>)
    requires WellFormed(ex, s) && AllFramesOk(ex, fs)
    requires Run(ex, s, fs).repCount == s.repCount
    ensures Run(ex, s, fs).framesSinceLastRep == s.framesSinceLastRep + |fs|
    decreases |fs|
  {
    if fs != [] {
      var t := Step(ex, s, fs[0]);
      StepCounting(ex, s, fs[0]);
      RunCountMonotone(ex, t, fs[1..]);
      QuietRun(ex, t, fs[1..]);
    }
  }

  lemma {:induction false} RunCountMonotone(ex: Exercise, s: EngineState, fs: seq<Frame>)
    requires WellFormed(ex, s) && AllFramesOk(ex, fs)
    ensures s.repCount <= Run(ex, s, fs).repCount <= s.repCount + |fs|
    decreases |fs|
  {
    if fs != [] {
      StepCounting(ex, s, fs[0]);
      RunCountMonotone(ex, Step(ex, s, fs[0]), fs[1..]);
    }
  }

  /** Two consecutive counted reps are at least `cooldown_frames` calls apart. */
  lemma CooldownSpacing(ex: Exercise, s: EngineState, first: Frame, between: seq<Frame>, second: Frame)
    requires WellFormed(ex, s) && FrameOk(ex, first) && AllFramesOk(ex, between) && FrameOk(ex, second)
    requires Step(ex, s, first).repCount > s.repCount
    requires Run(ex, Step(ex, s, first), between).repCount == Step(ex, s, first).repCount
    requires var u := Run(ex, Step(ex, s, first), between); Step(ex, u, second).repCount > u.repCount
    ensures |between| + 1 >= CooldownFrames(ex)
  {
    var t := Step(ex, s, first);
    StepCounting(ex, s, first);
    QuietRun(ex, t, between);
    StepCounting(ex, Run(ex, t, between), second);
  }

  /** The counter starts at the cooldown, so the first return of a fresh detector always counts. */
  lemma FirstReturnCounts(ex: Exercise, fs: seq<Frame>, m: Metrics)
    requires AllFramesOk(ex, fs) && IsMetrics(ex, m) && HasKeys(ex, m)
    requires Run(ex, Init(ex), fs).repCount == 0
    requires Run(ex, Init(ex), fs).inRepPosition && IsAtStartingPosition(ex, m)
    ensures Step(ex, Run(ex, Init(ex), fs), Some(m)).repCount == 1
  {
    QuietRun(ex, Init(ex), fs);
  }

  /** `get_instruction`: in position, else must return, else ready. */
  function Instruction(ex: Exercise, s: EngineState): string {
    if s.inRepPosition then InPositionInstruction(ex)
    else if !s.returnedToStart then ReturnInstruction(ex)
    else ReadyInstruction(ex)
  }

  /** On reachable states the return instruction is never shown. */
  lemma InstructionOnReachable(ex: Exercise, s: EngineState)
    requires Invariant(ex, s)
    ensures Instruction(ex, s) == (if s.inRepPosition then InPositionInstruction(ex) else ReadyInstruction(ex))
    ensures Instruction(ex, s) != ReturnInstruction(ex)
  {
    InstructionsDistinct(ex);
  }

  /**
   * The grade of a deadlift comes from the frames before the lockout frame:
   * a rep that locks out at 170 degrees in one frame, after a best of 95, is
   * logged as an incomplete lockout.
   */
  lemma DeadliftLockoutFrameNotGraded()
    ensures var best := map["hip_angle" := 95.0, "torso_angle" := 60.0, "knee_angle" := 120.0];
      var s := EngineState(0, true, false, 20, best, best, []);
      var lockout := map["hip_angle" := 170.0, "torso_angle" := 10.0, "knee_angle" := 175.0];
      Step(Deadlift, s, Some(lockout)).log == [RepRecord(1, "Incomplete lockout")]
  {
    var best := map["hip_angle" := 95.0, "torso_angle" := 60.0, "knee_angle" := 120.0];
    var lockout := map["hip_angle" := 170.0, "torso_angle" := 10.0, "knee_angle" := 175.0];
    assert DeadliftProfile.IsAtStartingPosition(lockout);
    assert DeadliftProfile.AssessRepQuality(best) == "Incomplete lockout";
  }

  /**
   * A calf raise can be counted from the ankle alone: entered with the ankle
   * extended past 135 degrees but the heels barely lifted, it is logged as
   * Shallow.
   */
  lemma CalfRaiseAnkleEntryShallow()
    ensures var entry := map["ankle_angle" := 140.0, "heel_height" := 0.02];
      var lowered := map["ankle_angle" := 90.0, "heel_height" := 0.01];
      Step(CalfRaise, Step(CalfRaise, Init(CalfRaise), Some(entry)), Some(lowered)).log == [RepRecord(1, "Shallow - Raise higher")]
  {
    var entry := map["ankle_angle" := 140.0, "heel_height" := 0.02];
    var lowered := map["ankle_angle" := 90.0, "heel_height" := 0.01];
    assert CalfRaiseProfile.IsInRepPosition(entry);
    assert CalfRaiseProfile.IsAtStartingPosition(lowered);
    assert CalfRaiseProfile.AssessRepQuality(entry) == "Shallow - Raise higher";
  }

  /**
   * A front raise can be counted from the arm angle alone: entered with the
   * arm under 100 degrees but the wrists below the shoulders, it is logged as
   * Low.
   */
  lemma FrontRaiseArmEntryLow()
    ensures var entry := map["wrist_height" := 0.1, "arm_angle" := 90.0];
      var lowered := map["wrist_height" := 0.2, "arm_angle" := 170.0];
      Step(FrontRaise, Step(FrontRaise, Init(FrontRaise), Some(entry)), Some(lowered)).log == [RepRecord(1, "Low - Raise higher")]
  {
    var entry := map["wrist_height" := 0.1, "arm_angle" := 90.0];
    var lowered := map["wrist_height" := 0.2, "arm_angle" := 170.0];
    assert FrontRaiseProfile.IsInRepPosition(entry);
    assert FrontRaiseProfile.IsAtStartingPosition(lowered);
    assert FrontRaiseProfile.AssessRepQuality(entry) == "Low - Raise higher";
  }

  /**
   * A fly opened to full width with straight arms is still logged as
   * Shallow: the widest frame is the return to start and is not merged, so
   * the grade comes from the widest frame before it.
   */
  lemma FlyFullOpeningGradedShallow()
    ensures var closed := map["wrist_distance" := 0.1, "elbow_angle" := 160.0, "arm_length" := 0.3];
      var opening := map["wrist_distance" := 0.45, "elbow_angle" := 160.0, "arm_length" := 0.3];
      var open := map["wrist_distance" := 0.7, "elbow_angle" := 160.0, "arm_length" := 0.3];
      var s1 := Step(DumbbellFly, Init(DumbbellFly), Some(closed));
      var s2 := Step(DumbbellFly, s1, Some(opening));
      Step(DumbbellFly, s2, Some(open)).log == [RepRecord(1, "Shallow - Open wider")]
  {
    var closed := map["wrist_distance" := 0.1, "elbow_angle" := 160.0, "arm_length" := 0.3];
    var opening := map["wrist_distance" := 0.45, "elbow_angle" := 160.0, "arm_length" := 0.3];
    var open := map["wrist_distance" := 0.7, "elbow_angle" := 160.0, "arm_length" := 0.3];
    assert DumbbellFlyProfile.IsInRepPosition(closed);
    var s1 := Step(DumbbellFly, Init(DumbbellFly), Some(closed));
    assert s1.inRepPosition && s1.bestMetrics == closed;
    assert !DumbbellFlyProfile.IsAtStartingPosition(opening) && !DumbbellFlyProfile.IsInRepPosition(opening);
    var s2 := Step(DumbbellFly, s1, Some(opening));
    assert s2.bestMetrics == DumbbellFlyProfile.UpdateBestMetrics(opening, closed);
    assert s2.bestMetrics["wrist_distance"] == 0.45 && s2.bestMetrics["elbow_angle"] == 160.0;
    assert DumbbellFlyProfile.IsAtStartingPosition(open);
    assert DumbbellFlyProfile.AssessRepQuality(s2.bestMetrics) == "Shallow - Open wider";
  }

  /** The default `update_best_metrics`: keys absent from the best are added; present ones are never overwritten. */
  function AddMissing(current: Metrics, best: Metrics): Metrics {
    map k | k in best.Keys + current.Keys :: if k in best then best[k] else current[k]
  }

  lemma AddMissingNeverOverwrites(current: Metrics, best: Metrics)
    ensures AddMissing(current, best).Keys == best.Keys + current.Keys
    ensures forall k :: k in best ==> AddMissing(current, best)[k] == best[k]
    ensures forall k :: k in current && k !in best ==> AddMissing(current, best)[k] == current[k]
    ensures AddMissing(current, AddMissing(current, best)) == AddMissing(current, best)
  {
  }

  /** The loop of the default `update_best_metrics`, one key of `current` at a time. */
  method DefaultUpdateBestMetrics(current: Metrics, best: Metrics) returns (b: Metrics)
    ensures b == AddMissing(current, best)
  {
    b := best;
    var remaining := current.Keys;
    while remaining != {}
      invariant remaining <= current.Keys
      invariant b == AddMissing(map k | k in current.Keys - remaining :: current[k], best)
      decreases remaining
    {
      var key :| key in remaining;
      if key !in b {
        b := b[key := current[key]];
      }
      remaining := remaining - {key};
    }
    assert current.Keys - remaining == current.Keys;
    assert (map k | k in current.Keys :: current[k]) == current;
  }

  /** `calculate_bilateral_angle`: the angle function is the caller's `calculate_angle`. */
  function CalculateBilateralAngle(joints: map<string, Point>, j1: string, j2: string, j3: string,
                                   angle: (Point, Point, Point) -> real): (r: Option<real>)
    ensures var hasLeft := "left_" + j1 in joints && "left_" + j2 in joints && "left_" + j3 in joints;
      var hasRight := "right_" + j1 in joints && "right_" + j2 in joints && "right_" + j3 in joints;
      && (r.None? <==> !hasLeft && !hasRight)
      && (hasLeft && !hasRight ==> r == Some(angle(joints["left_" + j1], joints["left_" + j2], joints["left_" + j3])))
      && (!hasLeft && hasRight ==> r == Some(angle(joints["right_" + j1], joints["right_" + j2], joints["right_" + j3])))
      && (hasLeft && hasRight ==>
            var l := angle(joints["left_" + j1], joints["left_" + j2], joints["left_" + j3]);
            var rt := angle(joints["right_" + j1], joints["right_" + j2], joints["right_" + j3]);
            r.Some? && r.value - l == rt - r.value)
  {
    var left :=
      if "left_" + j1 in joints && "left_" + j2 in joints && "left_" + j3 in joints
      then Some(angle(joints["left_" + j1], joints["left_" + j2], joints["left_" + j3])) else None;
    var right :=
      if "right_" + j1 in joints && "right_" + j2 in joints && "right_" + j3 in joints
      then Some(angle(joints["right_" + j1], joints["right_" + j2], joints["right_" + j3])) else None;
    BilateralAverage(left, right)
  }

  /** `BaseExerciseDetector`, with the profile fixed at construction. */
  class ExerciseDetector {
    const exercise: Exercise
    const cooldownFrames: int
    var repCount: nat
    var inRepPosition: bool
    var returnedToStart: bool
    var framesSinceLastRep: int
    var currentMetrics: Metrics
    var bestMetrics: Metrics
    var log: seq<RepRecord>

    function State(): EngineState
      reads this
    {
      EngineState(repCount, inRepPosition, returnedToStart, framesSinceLastRep, currentMetrics, bestMetrics, log)
    }

    predicate Valid()
      reads this
    {
      cooldownFrames == CooldownFrames(exercise) && Invariant(exercise, State())
    }

    constructor (exercise: Exercise)
      ensures this.exercise == exercise && Valid() && State() == Init(exercise)
    {
      this.exercise := exercise;
      cooldownFrames := CooldownFrames(exercise);
      repCount := 0;
      inRepPosition := false;
      returnedToStart := true;
      framesSinceLastRep := CooldownFrames(exercise);
      currentMetrics := map[];
      bestMetrics := map[];
      log := [];
    }

    /** `_complete_rep`; returns the logged record. */
    method CompleteRep() returns (record: RepRecord)
      requires HasKeys(exercise, bestMetrics)
      modifies this
      ensures State() == AfterCompleteRep(exercise, old(State()))
      ensures record == RepRecord(repCount, AssessRepQuality(exercise, bestMetrics)) && log == old(log) + [record]
    {
      repCount := repCount + 1;
      framesSinceLastRep := 0;
      record := RepRecord(repCount, AssessRepQuality(exercise, bestMetrics));
      log := log + [record];
    }

    /** `on_joints_detected`; returns the rep record when this frame completed a rep. */
    method OnJointsDetected(frame: Frame) returns (completed: Option<RepRecord>)
      requires Valid() && FrameOk(exercise, frame)
      modifies this
      ensures Valid() && State() == Step(exercise, old(State()), frame)
      ensures completed.Some? <==> repCount == old(repCount) + 1
      ensures completed.Some? ==> log == old(log) + [completed.value]
    {
      StepInvariant(exercise, State(), frame);
      StepCounting(exercise, State(), frame);
      framesSinceLastRep := framesSinceLastRep + 1;
      completed := None;
      if frame.None? {
        return;
      }
      var m := frame.value;
      MetricsHaveKeys(exercise, m);
      currentMetrics := m;
      var isInPosition := IsInRepPosition(exercise, m);
      var isAtStart := IsAtStartingPosition(exercise, m);
      if isAtStart && inRepPosition {
        returnedToStart := true;
        inRepPosition := false;
        if framesSinceLastRep >= cooldownFrames {
          var record := CompleteRep();
          completed := Some(record);
        }
      } else if isInPosition && !inRepPosition && returnedToStart {
        inRepPosition := true;
        returnedToStart := false;
        bestMetrics := m;
      } else if inRepPosition {
        bestMetrics := UpdateBestMetrics(exercise, m, bestMetrics);
      }
    }

    /** `get_instruction` */
    function GetInstruction(): (r: string)
      reads this
      requires Valid()
      ensures r == (if inRepPosition then InPositionInstruction(exercise) else ReadyInstruction(exercise))
    {
      InstructionOnReachable(exercise, State());
      Instruction(exercise, State())
    }
  }
}
