/**
 * The closed set of exercise profiles the engine can run, and dispatch of
 * each profile hook (position tests, quality ladder, best-metrics merge,
 * instructions, cooldown) to the profile's own module.
 */
module Profiles {
  import opened MetricMaps
  import opened Wrappers
  import SquatProfile
  import ShoulderPressProfile
  import DeadliftProfile
  import RomanianDeadliftProfile
  import CalfRaiseProfile
  import BarbellRowProfile
  import BicepCurlProfile
  import BenchPressProfile
  import FrontRaiseProfile
  import DumbbellFlyProfile

  datatype Exercise =
    | Squat | ShoulderPress | Deadlift | RomanianDeadlift | CalfRaise
    | BarbellRow | BicepCurl | BenchPress | FrontRaise | DumbbellFly

  /** The `exercise_name` each detector passes to the base constructor. */
  function ExerciseName(ex: Exercise): string {
    match ex
    case Squat => SquatProfile.ExerciseName
    case ShoulderPress => ShoulderPressProfile.ExerciseName
    case Deadlift => DeadliftProfile.ExerciseName
    case RomanianDeadlift => RomanianDeadliftProfile.ExerciseName
    case CalfRaise => CalfRaiseProfile.ExerciseName
    case BarbellRow => BarbellRowProfile.ExerciseName
    case BicepCurl => BicepCurlProfile.ExerciseName
    case BenchPress => BenchPressProfile.ExerciseName
    case FrontRaise => FrontRaiseProfile.ExerciseName
    case DumbbellFly => DumbbellFlyProfile.ExerciseName
  }

  /** The `cooldown_frames` each detector passes to the base constructor. */
  function CooldownFrames(ex: Exercise): (c: int)
    ensures c == 15 || c == 20 || c == 30
  {
    match ex
    case Squat => SquatProfile.CooldownFrames
    case ShoulderPress => ShoulderPressProfile.CooldownFrames
    case Deadlift => DeadliftProfile.CooldownFrames
    case RomanianDeadlift => RomanianDeadliftProfile.CooldownFrames
    case CalfRaise => CalfRaiseProfile.CooldownFrames
    case BarbellRow => BarbellRowProfile.CooldownFrames
    case BicepCurl => BicepCurlProfile.CooldownFrames
    case BenchPress => BenchPressProfile.CooldownFrames
    case FrontRaise => FrontRaiseProfile.CooldownFrames
    case DumbbellFly => DumbbellFlyProfile.CooldownFrames
  }

  /** The metric keys the profile's tests read. */
  predicate HasKeys(ex: Exercise, m: Metrics) {
    match ex
    case Squat => SquatProfile.HasKeys(m)
    case ShoulderPress => ShoulderPressProfile.HasKeys(m)
    case Deadlift => DeadliftProfile.HasKeys(m)
    case RomanianDeadlift => RomanianDeadliftProfile.HasKeys(m)
    case CalfRaise => CalfRaiseProfile.HasKeys(m)
    case BarbellRow => BarbellRowProfile.HasKeys(m)
    case BicepCurl => BicepCurlProfile.HasKeys(m)
    case BenchPress => BenchPressProfile.HasKeys(m)
    case FrontRaise => FrontRaiseProfile.HasKeys(m)
    case DumbbellFly => DumbbellFlyProfile.HasKeys(m)
  }

  /** Metrics as the profile's `calculate_metrics` produces them. */
  predicate IsMetrics(ex: Exercise, m: Metrics) {
    match ex
    case Squat => SquatProfile.IsMetrics(m)
    case ShoulderPress => ShoulderPressProfile.IsMetrics(m)
    case Deadlift => DeadliftProfile.IsMetrics(m)
    case RomanianDeadlift => RomanianDeadliftProfile.IsMetrics(m)
    case CalfRaise => CalfRaiseProfile.IsMetrics(m)
    case BarbellRow => BarbellRowProfile.IsMetrics(m)
    case BicepCurl => BicepCurlProfile.IsMetrics(m)
    case BenchPress => BenchPressProfile.IsMetrics(m)
    case FrontRaise => FrontRaiseProfile.IsMetrics(m)
    case DumbbellFly => DumbbellFlyProfile.IsMetrics(m)
  }

  lemma MetricsHaveKeys(ex: Exercise, m: Metrics)
    requires IsMetrics(ex, m)
    ensures HasKeys(ex, m)
  {
  }

  predicate IsInRepPosition(ex: Exercise, m: Metrics)
    requires HasKeys(ex, m)
  {
    match ex
    case Squat => SquatProfile.IsInRepPosition(m)
    case ShoulderPress => ShoulderPressProfile.IsInRepPosition(m)
    case Deadlift => DeadliftProfile.IsInRepPosition(m)
    case RomanianDeadlift => RomanianDeadliftProfile.IsInRepPosition(m)
    case CalfRaise => CalfRaiseProfile.IsInRepPosition(m)
    case BarbellRow => BarbellRowProfile.IsInRepPosition(m)
    case BicepCurl => BicepCurlProfile.IsInRepPosition(m)
    case BenchPress => BenchPressProfile.IsInRepPosition(m)
    case FrontRaise => FrontRaiseProfile.IsInRepPosition(m)
    case DumbbellFly => DumbbellFlyProfile.IsInRepPosition(m)
  }

  predicate IsAtStartingPosition(ex: Exercise, m: Metrics)
    requires HasKeys(ex, m)
  {
    match ex
    case Squat => SquatProfile.IsAtStartingPosition(m)
    case ShoulderPress => ShoulderPressProfile.IsAtStartingPosition(m)
    case Deadlift => DeadliftProfile.IsAtStartingPosition(m)
    case RomanianDeadlift => RomanianDeadliftProfile.IsAtStartingPosition(m)
    case CalfRaise => CalfRaiseProfile.IsAtStartingPosition(m)
    case BarbellRow => BarbellRowProfile.IsAtStartingPosition(m)
    case BicepCurl => BicepCurlProfile.IsAtStartingPosition(m)
    case BenchPress => BenchPressProfile.IsAtStartingPosition(m)
    case FrontRaise => FrontRaiseProfile.IsAtStartingPosition(m)
    case DumbbellFly => DumbbellFlyProfile.IsAtStartingPosition(m)
  }

  /** In every profile, no frame is both in the rep position and at the start. */
  lemma PositionsDisjoint(ex: Exercise, m: Metrics)
    requires HasKeys(ex, m)
    ensures !(IsInRepPosition(ex, m) && IsAtStartingPosition(ex, m))
  {
    match ex
    case Squat => SquatProfile.PositionsDisjoint(m);
    case ShoulderPress => ShoulderPressProfile.PositionsDisjoint(m);
    case Deadlift => DeadliftProfile.PositionsDisjoint(m);
    case RomanianDeadlift => RomanianDeadliftProfile.PositionsDisjoint(m);
    case CalfRaise => CalfRaiseProfile.PositionsDisjoint(m);
    case BarbellRow => BarbellRowProfile.PositionsDisjoint(m);
    case BicepCurl => BicepCurlProfile.PositionsDisjoint(m);
    case BenchPress => BenchPressProfile.PositionsDisjoint(m);
    case FrontRaise => FrontRaiseProfile.PositionsDisjoint(m);
    case DumbbellFly => DumbbellFlyProfile.PositionsDisjoint(m);
  }

  function AssessRepQuality(ex: Exercise, m: Metrics): string
    requires HasKeys(ex, m)
  {
    match ex
    case Squat => SquatProfile.AssessRepQuality(m)
    case ShoulderPress => ShoulderPressProfile.AssessRepQuality(m)
    case Deadlift => DeadliftProfile.AssessRepQuality(m)
    case RomanianDeadlift => RomanianDeadliftProfile.AssessRepQuality(m)
    case CalfRaise => CalfRaiseProfile.AssessRepQuality(m)
    case BarbellRow => BarbellRowProfile.AssessRepQuality(m)
    case BicepCurl => BicepCurlProfile.AssessRepQuality(m)
    case BenchPress => BenchPressProfile.AssessRepQuality(m)
    case FrontRaise => FrontRaiseProfile.AssessRepQuality(m)
    case DumbbellFly => DumbbellFlyProfile.AssessRepQuality(m)
  }

  /** The profile's `update_best_metrics`; it only ever adds or overwrites keys. */
  function UpdateBestMetrics(ex: Exercise, current: Metrics, best: Metrics): (b: Metrics)
    requires HasKeys(ex, current)
    ensures b.Keys >= best.Keys
  {
    match ex
    case Squat => SquatProfile.UpdateBestMetrics(current, best)
    case ShoulderPress => ShoulderPressProfile.UpdateBestMetrics(current, best)
    case Deadlift => DeadliftProfile.UpdateBestMetrics(current, best)
    case RomanianDeadlift => RomanianDeadliftProfile.UpdateBestMetrics(current, best)
    case CalfRaise => CalfRaiseProfile.UpdateBestMetrics(current, best)
    case BarbellRow => BarbellRowProfile.UpdateBestMetrics(current, best)
    case BicepCurl => BicepCurlProfile.UpdateBestMetrics(current, best)
    case BenchPress => BenchPressProfile.UpdateBestMetrics(current, best)
    case FrontRaise => FrontRaiseProfile.UpdateBestMetrics(current, best)
    case DumbbellFly => DumbbellFlyProfile.UpdateBestMetrics(current, best)
  }

  function InPositionInstruction(ex: Exercise): string {
    match ex
    case Squat => SquatProfile.InPositionInstruction
    case ShoulderPress => ShoulderPressProfile.InPositionInstruction
    case Deadlift => DeadliftProfile.InPositionInstruction
    case RomanianDeadlift => RomanianDeadliftProfile.InPositionInstruction
    case CalfRaise => CalfRaiseProfile.InPositionInstruction
    case BarbellRow => BarbellRowProfile.InPositionInstruction
    case BicepCurl => BicepCurlProfile.InPositionInstruction
    case BenchPress => BenchPressProfile.InPositionInstruction
    case FrontRaise => FrontRaiseProfile.InPositionInstruction
    case DumbbellFly => DumbbellFlyProfile.InPositionInstruction
  }

  function ReturnInstruction(ex: Exercise): string {
    match ex
    case Squat => SquatProfile.ReturnInstruction
    case ShoulderPress => ShoulderPressProfile.ReturnInstruction
    case Deadlift => DeadliftProfile.ReturnInstruction
    case RomanianDeadlift => RomanianDeadliftProfile.ReturnInstruction
    case CalfRaise => CalfRaiseProfile.ReturnInstruction
    case BarbellRow => BarbellRowProfile.ReturnInstruction
    case BicepCurl => BicepCurlProfile.ReturnInstruction
    case BenchPress => BenchPressProfile.ReturnInstruction
    case FrontRaise => FrontRaiseProfile.ReturnInstruction
    case DumbbellFly => DumbbellFlyProfile.ReturnInstruction
  }

  /** The ready instruction; the squat and press variants see no `_last_metrics`, since nothing sets it. */
  function ReadyInstruction(ex: Exercise): string {
    match ex
    case Squat => SquatProfile.ReadyInstruction(None)
    case ShoulderPress => ShoulderPressProfile.ReadyInstruction(None)
    case Deadlift => DeadliftProfile.ReadyInstruction
    case RomanianDeadlift => RomanianDeadliftProfile.ReadyInstruction
    case CalfRaise => CalfRaiseProfile.ReadyInstruction
    case BarbellRow => BarbellRowProfile.ReadyInstruction
    case BicepCurl => BicepCurlProfile.ReadyInstruction
    case BenchPress => BenchPressProfile.ReadyInstruction
    case FrontRaise => FrontRaiseProfile.ReadyInstruction
    case DumbbellFly => DumbbellFlyProfile.ReadyInstruction
  }

  /** Each profile's three instructions are pairwise different, so the instruction shows the state. */
  lemma InstructionsDistinct(ex: Exercise)
    ensures ReturnInstruction(ex) != InPositionInstruction(ex)
    ensures ReturnInstruction(ex) != ReadyInstruction(ex)
    ensures InPositionInstruction(ex) != ReadyInstruction(ex)
  {
    match ex
    case Squat =>
      assert ReturnInstruction(ex)[0] == 'S' && InPositionInstruction(ex)[0] == 'F' && ReadyInstruction(ex)[0] == 'R';
    case ShoulderPress =>
      assert ReturnInstruction(ex)[0] == 'L' && InPositionInstruction(ex)[0] == 'O' && ReadyInstruction(ex)[0] == 'R';
    case Deadlift =>
      assert ReturnInstruction(ex)[0] == 'L' && InPositionInstruction(ex)[0] == 'P' && ReadyInstruction(ex)[0] == 'R';
    case RomanianDeadlift =>
      assert ReturnInstruction(ex)[0] == 'S' && InPositionInstruction(ex)[0] == 'H' && ReadyInstruction(ex)[0] == 'R';
    case CalfRaise =>
      assert ReturnInstruction(ex)[1] == 'O' && InPositionInstruction(ex)[1] == 'A' && ReadyInstruction(ex)[1] == 'E';
    case BarbellRow =>
      assert ReturnInstruction(ex)[0] == 'E' && InPositionInstruction(ex)[0] == 'P' && ReadyInstruction(ex)[0] == 'R';
    case BicepCurl =>
      assert ReturnInstruction(ex)[0] == 'L' && InPositionInstruction(ex)[0] == 'C' && ReadyInstruction(ex)[0] == 'R';
    case BenchPress =>
      assert ReturnInstruction(ex)[1] == 'O' && InPositionInstruction(ex)[1] == 'O' && ReadyInstruction(ex)[1] == 'E';
      assert ReturnInstruction(ex)[4] == 'R' && InPositionInstruction(ex)[4] == 'E';
    case FrontRaise =>
      assert ReturnInstruction(ex)[1] == 'O' && InPositionInstruction(ex)[1] == 'A' && ReadyInstruction(ex)[1] == 'E';
    case DumbbellFly =>
      assert ReturnInstruction(ex)[0] == 'O' && InPositionInstruction(ex)[0] == 'C' && ReadyInstruction(ex)[0] == 'R';
  }

  /** What holds of the best metrics for the whole time a rep is in progress. */
  predicate BestInvariant(ex: Exercise, best: Metrics) {
    match ex
    case Squat => SquatProfile.BestInvariant(best)
    case ShoulderPress => ShoulderPressProfile.BestInvariant(best)
    case Deadlift => DeadliftProfile.BestInvariant(best)
    case RomanianDeadlift => RomanianDeadliftProfile.BestInvariant(best)
    case CalfRaise => CalfRaiseProfile.BestInvariant(best)
    case BarbellRow => BarbellRowProfile.BestInvariant(best)
    case BicepCurl => BicepCurlProfile.BestInvariant(best)
    case BenchPress => BenchPressProfile.BestInvariant(best)
    case FrontRaise => FrontRaiseProfile.BestInvariant(best)
    case DumbbellFly => DumbbellFlyProfile.BestInvariant(best)
  }

  /** The grades a counted rep of the profile can receive. */
  predicate CountedGrade(ex: Exercise, q: string) {
    match ex
    case Squat => SquatProfile.CountedGrade(q)
    case ShoulderPress => ShoulderPressProfile.CountedGrade(q)
    case Deadlift => DeadliftProfile.CountedGrade(q)
    case RomanianDeadlift => RomanianDeadliftProfile.CountedGrade(q)
    case CalfRaise => CalfRaiseProfile.CountedGrade(q)
    case BarbellRow => BarbellRowProfile.CountedGrade(q)
    case BicepCurl => BicepCurlProfile.CountedGrade(q)
    case BenchPress => BenchPressProfile.CountedGrade(q)
    case FrontRaise => FrontRaiseProfile.CountedGrade(q)
    case DumbbellFly => DumbbellFlyProfile.CountedGrade(q)
  }

  lemma BestInvariantHasKeys(ex: Exercise, best: Metrics)
    requires BestInvariant(ex, best)
    ensures HasKeys(ex, best)
  {
  }

  /** Entering the rep position seeds a best that satisfies the invariant. */
  lemma EntrySeedsBest(ex: Exercise, m: Metrics)
    requires IsMetrics(ex, m) && HasKeys(ex, m) && IsInRepPosition(ex, m)
    ensures BestInvariant(ex, m)
  {
    match ex
    case Squat => SquatProfile.EntrySeedsBest(m);
    case ShoulderPress => ShoulderPressProfile.EntrySeedsBest(m);
    case Deadlift => DeadliftProfile.EntrySeedsBest(m);
    case RomanianDeadlift => RomanianDeadliftProfile.EntrySeedsBest(m);
    case CalfRaise => CalfRaiseProfile.EntrySeedsBest(m);
    case BarbellRow => BarbellRowProfile.EntrySeedsBest(m);
    case BicepCurl => BicepCurlProfile.EntrySeedsBest(m);
    case BenchPress => BenchPressProfile.EntrySeedsBest(m);
    case FrontRaise => FrontRaiseProfile.EntrySeedsBest(m);
    case DumbbellFly => DumbbellFlyProfile.EntrySeedsBest(m);
  }

  /** The profile's merge keeps the invariant, on the frames the engine merges: those that are not a return to start. */
  lemma MergeKeepsBest(ex: Exercise, current: Metrics, best: Metrics)
    requires IsMetrics(ex, current) && HasKeys(ex, current) && BestInvariant(ex, best)
    requires !IsAtStartingPosition(ex, current)
    ensures BestInvariant(ex, UpdateBestMetrics(ex, current, best))
  {
    match ex
    case Squat => SquatProfile.MergeKeepsBest(current, best);
    case ShoulderPress => ShoulderPressProfile.MergeKeepsBest(current, best);
    case Deadlift => DeadliftProfile.MergeKeepsBest(current, best);
    case RomanianDeadlift => RomanianDeadliftProfile.MergeKeepsBest(current, best);
    case CalfRaise => CalfRaiseProfile.MergeKeepsBest(current, best);
    case BarbellRow => BarbellRowProfile.MergeKeepsBest(current, best);
    case BicepCurl => BicepCurlProfile.MergeKeepsBest(current, best);
    case BenchPress => BenchPressProfile.MergeKeepsBest(current, best);
    case FrontRaise => FrontRaiseProfile.MergeKeepsBest(current, best);
    case DumbbellFly => DumbbellFlyProfile.MergeKeepsBest(current, best);
  }

  /** A best satisfying the invariant is graded with one of the counted grades. */
  lemma CountedQuality(ex: Exercise, best: Metrics)
    requires BestInvariant(ex, best) && HasKeys(ex, best)
    ensures CountedGrade(ex, AssessRepQuality(ex, best))
  {
    match ex
    case Squat => SquatProfile.CountedQuality(best);
    case ShoulderPress => ShoulderPressProfile.CountedQuality(best);
    case Deadlift => DeadliftProfile.CountedQuality(best);
    case RomanianDeadlift => RomanianDeadliftProfile.CountedQuality(best);
    case CalfRaise => CalfRaiseProfile.CountedQuality(best);
    case BarbellRow => BarbellRowProfile.CountedQuality(best);
    case BicepCurl => BicepCurlProfile.CountedQuality(best);
    case BenchPress => BenchPressProfile.CountedQuality(best);
    case FrontRaise => FrontRaiseProfile.CountedQuality(best);
    case DumbbellFly => DumbbellFlyProfile.CountedQuality(best);
  }
}
