/**
 * The statistics the two servers report for the running tracker: the
 * `WebTracker.get_stats` of api/app.py (reps, sets of ten, duration and the
 * attached workout plan) and the one of web_server.py (a status and an
 * instruction chosen from the detector's two flags, and its best metrics).
 * The tracker is given as a value: what `start` and `stop` left in it.
 */
module TrackerStats {
  import opened Wrappers
  import opened Text
  import opened MetricMaps
  import opened Profiles
  import opened Registry
  import BaseExercise

  /** The plan attributes `start` may have set on the detector, each present or not. */
  datatype Plan = Plan(sets: Option<int>, repsPerSet: Option<int>, targetWeight: Option<real>, restSeconds: Option<int>)

  /** A detector attached by `start`: its profile, its engine state and its plan attributes. */
  datatype Attached = Attached(exercise: Exercise, state: BaseExercise.EngineState, plan: Plan)

  /** The fields of `WebTracker` that `get_stats` reads. */
  datatype Tracker = Tracker(exerciseType: string, running: bool, detector: Option<Attached>)

  /** Statistics are reported only for a running tracker with a detector. */
  predicate Active(t: Tracker) {
    t.detector.Some? && t.running
  }

  predicate HasPlan(p: Plan) {
    p.sets.Some? || p.repsPerSet.Some? || p.targetWeight.Some? || p.restSeconds.Some?
  }

  /** The `expected_plan` of the api/app.py response: null, left out, or the attributes present. */
  datatype PlanField = NullPlan | NoPlan | GivenPlan(plan: Plan)

  datatype AppStats = AppStats(reps: nat, sets: nat, duration: int, expectedPlan: PlanField)

  /** Python's `int()` of a float: truncation toward zero. */
  function TruncateToInt(x: real): (r: int)
    ensures x >= 0.0 ==> r as real <= x < r as real + 1.0
    ensures x < 0.0 ==> r as real - 1.0 < x <= r as real
  {
    if x >= 0.0 then x.Floor else -((-x).Floor)
  }

  /**
   * api/app.py's `get_stats`. No detector has a `start_time` attribute, so
   * the duration is the first clock reading minus the default, a second
   * reading taken after it.
   */
  function AppGetStats(t: Tracker, firstClock: real, secondClock: real): (r: AppStats)
    ensures !Active(t) ==> r == AppStats(0, 0, 0, NullPlan)
    ensures Active(t) ==> r.reps == t.detector.value.state.repCount
    ensures r.sets * 10 <= r.reps < r.sets * 10 + 10
    ensures Active(t) ==> (r.expectedPlan.GivenPlan? <==> HasPlan(t.detector.value.plan))
    ensures Active(t) ==> r.expectedPlan != NullPlan
    ensures r.expectedPlan.GivenPlan? ==> r.expectedPlan.plan == t.detector.value.plan
  {
    if !Active(t) then AppStats(0, 0, 0, NullPlan)
    else
      var d := t.detector.value;
      var reps := d.state.repCount;
      AppStats(reps, reps / 10, TruncateToInt(firstClock - secondClock),
               if HasPlan(d.plan) then GivenPlan(d.plan) else NoPlan)
  }

  /** Two clock readings less than a second apart give a duration of zero. */
  lemma AppDurationZero(t: Tracker, firstClock: real, secondClock: real)
    requires firstClock <= secondClock < firstClock + 1.0
    ensures AppGetStats(t, firstClock, secondClock).duration == 0
  {
  }

  /** Each counted rep beyond a multiple of ten completes a set only at the tenth. */
  lemma {:induction false} SetsOfTen(t: Tracker, firstClock: real, secondClock: real)
    requires Active(t)
    ensures var n := t.detector.value.state.repCount;
      AppGetStats(t, firstClock, secondClock).sets == n / 10
      && (n % 10 == 9 ==> (n + 1) / 10 == n / 10 + 1)
      && (n % 10 != 9 ==> (n + 1) / 10 == n / 10)
  {
    var n := t.detector.value.state.repCount;
    var r := AppGetStats(t, firstClock, secondClock);
    assert r.sets == n / 10 by {
      assert r.sets * 10 <= n < r.sets * 10 + 10;
      assert n == (n / 10) * 10 + n % 10;
    }
  }

  /** The `details` object of the web_server.py response. */
  datatype Details = Details(inPosition: bool, returned: bool, bestMetrics: Option<Metrics>, plan: Plan)

  datatype WebStats = WebStats(exercise: string, reps: nat, status: string, active: bool,
                               instruction: string, details: Option<Details>)

  const NotStarted := "Not started"
  const InPosition := "In position"
  const MustReturn := "Must return"
  const Ready := "Ready"
  const StartPrompt := "Select an exercise and press Start"

  /** The status label, chosen by the same branches as the instruction. */
  function Status(s: BaseExercise.EngineState): string {
    if s.inRepPosition then InPosition
    else if !s.returnedToStart then MustReturn
    else Ready
  }

  /** The display name: the registry's name for the id, else the id in title case. */
  function DisplayName(registry: seq<Entry>, exerciseType: string): string {
    match LookupIn(registry, exerciseType)
    case Some(e) => e.name
    case None => Title(exerciseType)
  }

  /** web_server.py's `get_stats`, with the registry it reads the display name from. */
  function WebGetStats(registry: seq<Entry>, t: Tracker): (r: WebStats)
    ensures !Active(t) ==> r == WebStats(t.exerciseType, 0, NotStarted, false, StartPrompt, None)
    ensures r.active <==> Active(t)
    ensures r.details.Some? <==> Active(t)
    ensures Active(t) ==> r.reps == t.detector.value.state.repCount
    ensures Active(t) ==> r.instruction == BaseExercise.Instruction(t.detector.value.exercise, t.detector.value.state)
    ensures Active(t) ==> r.details.value.inPosition == t.detector.value.state.inRepPosition
                          && r.details.value.returned == t.detector.value.state.returnedToStart
                          && r.details.value.plan == t.detector.value.plan
    ensures Active(t) ==> (r.details.value.bestMetrics.Some? <==> t.detector.value.state.bestMetrics != map[])
    ensures r.details.Some? && r.details.value.bestMetrics.Some? ==>
              r.details.value.bestMetrics.value == t.detector.value.state.bestMetrics
  {
    if !Active(t) then WebStats(t.exerciseType, 0, NotStarted, false, StartPrompt, None)
    else
      var d := t.detector.value;
      var s := d.state;
      var instruction :=
        if s.inRepPosition then InPositionInstruction(d.exercise)
        else if !s.returnedToStart then ReturnInstruction(d.exercise)
        else ReadyInstruction(d.exercise);
      var best := if s.bestMetrics != map[] then Some(s.bestMetrics) else None;
      WebStats(DisplayName(registry, t.exerciseType), s.repCount, Status(s), true, instruction,
               Some(Details(s.inRepPosition, s.returnedToStart, best, d.plan)))
  }

  /** The status names the branch: in position, must return, or ready, and "Not started" only when inactive. */
  lemma StatusBranches(registry: seq<Entry>, t: Tracker)
    ensures var r := WebGetStats(registry, t);
      && (r.status == NotStarted <==> !Active(t))
      && (Active(t) ==> (r.status == InPosition <==> t.detector.value.state.inRepPosition))
      && (Active(t) ==> (r.status == MustReturn <==> !t.detector.value.state.inRepPosition && !t.detector.value.state.returnedToStart))
      && (Active(t) ==> (r.status == Ready <==> !t.detector.value.state.inRepPosition && t.detector.value.state.returnedToStart))
  {
    assert NotStarted[0] != InPosition[0] && NotStarted[0] != MustReturn[0] && NotStarted[0] != Ready[0];
    assert InPosition[0] != MustReturn[0] && InPosition[0] != Ready[0] && MustReturn[0] != Ready[0];
  }

  /**
   * On any state the rep-counting engine reaches, the two flags are
   * complements, so the status is never "Must return" and the user is never
   * shown the return instruction.
   */
  lemma NeverMustReturn(registry: seq<Entry>, t: Tracker)
    requires Active(t) && BaseExercise.Invariant(t.detector.value.exercise, t.detector.value.state)
    ensures WebGetStats(registry, t).status != MustReturn
    ensures WebGetStats(registry, t).instruction != ReturnInstruction(t.detector.value.exercise)
  {
    StatusBranches(registry, t);
    BaseExercise.InstructionOnReachable(t.detector.value.exercise, t.detector.value.state);
  }

  /** A detector that has run from its initial state over valid frames never reports "Must return". */
  lemma RunNeverMustReturn(registry: seq<Entry>, ex: Exercise, fs: seq<BaseExercise.Frame>, exerciseType: string, plan: Plan)
    requires BaseExercise.AllFramesOk(ex, fs)
    ensures var t := Tracker(exerciseType, true, Some(Attached(ex, BaseExercise.Run(ex, BaseExercise.Init(ex), fs), plan)));
      WebGetStats(registry, t).status != MustReturn
  {
    BaseExercise.InitInvariant(ex);
    BaseExercise.RunInvariant(ex, BaseExercise.Init(ex), fs);
    NeverMustReturn(registry, Tracker(exerciseType, true, Some(Attached(ex, BaseExercise.Run(ex, BaseExercise.Init(ex), fs), plan))));
  }

  /** A running detector started for a registered id is shown under its registry name. */
  lemma RegisteredDisplayName(ex: Exercise)
    ensures DisplayName(ExerciseRegistry, Id(ex)) == ExerciseName(ex)
  {
    RegisteredId(ex);
  }

  /** An id no detector has is shown in title case. */
  lemma UnregisteredDisplayName(exerciseType: string)
    requires ParseId(exerciseType).None?
    ensures DisplayName(ExerciseRegistry, exerciseType) == Title(exerciseType)
  {
    LookupIsParseId(exerciseType);
  }

  /** The two servers report the same rep count, and both report nothing for an inactive tracker. */
  lemma ServersAgreeOnReps(registry: seq<Entry>, t: Tracker, firstClock: real, secondClock: real)
    ensures AppGetStats(t, firstClock, secondClock).reps == WebGetStats(registry, t).reps
    ensures !WebGetStats(registry, t).active ==> AppGetStats(t, firstClock, secondClock) == AppStats(0, 0, 0, NullPlan)
  {
  }
}
