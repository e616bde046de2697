/**
 * The squat profile of api/exercises/squat.py: knee angle and hip-to-knee
 * depth, a depth-graded quality ladder, and a merge that keeps the deepest
 * frame of the rep.
 */
module SquatProfile {
  import opened Wrappers
  import opened Utils
  import opened MetricMaps

  const ExerciseName := "Squat"
  const CooldownFrames := 30

  const KneeAngleThreshold := 100.0
  const DepthThreshold := 0.15
  const StandingAngle := 160.0
  const StandingDepth := 0.25

  const KneeAngle := "knee_angle"
  const SquatDepth := "squat_depth"

  predicate HasKeys(m: Metrics) {
    KneeAngle in m && SquatDepth in m
  }

  /** What `calculate_metrics` produces: both keys, and a depth that is never negative. */
  predicate IsMetrics(m: Metrics) {
    HasKeys(m) && m[SquatDepth] >= 0.0
  }

  /** `calculate_metrics`, given the bilateral knee angle and the four joints the depth uses. */
  function CalculateMetrics(kneeAngle: real, leftHip: Point, leftKnee: Point, rightHip: Point, rightKnee: Point): (m: Metrics)
    ensures IsMetrics(m) && m.Keys == {KneeAngle, SquatDepth}
    ensures m[KneeAngle] == kneeAngle
    ensures m[SquatDepth] - Abs(leftHip.y - leftKnee.y) == Abs(rightHip.y - rightKnee.y) - m[SquatDepth]
  {
    map[KneeAngle := kneeAngle, SquatDepth := (Abs(leftHip.y - leftKnee.y) + Abs(rightHip.y - rightKnee.y)) / 2.0]
  }

  /** Bottom of the squat: knees bent and hips near knee height. */
  predicate IsInRepPosition(m: Metrics)
    requires HasKeys(m)
  {
    m[KneeAngle] < KneeAngleThreshold && m[SquatDepth] < DepthThreshold
  }

  /** Standing: knees extended and hips high. */
  predicate IsAtStartingPosition(m: Metrics)
    requires HasKeys(m)
  {
    m[KneeAngle] > StandingAngle && m[SquatDepth] > StandingDepth
  }

  lemma PositionsDisjoint(m: Metrics)
    requires HasKeys(m)
    ensures !(IsInRepPosition(m) && IsAtStartingPosition(m))
  {
  }

  const Excellent := "Excellent - ATG (Ass to Grass)"
  const Good := "Good - Full depth / Parallel"
  const Fair := "Fair - Just below parallel"
  const Shallow := "Shallow - Go deeper"

  function AssessRepQuality(m: Metrics): (q: string)
    requires HasKeys(m)
    ensures q == Excellent || q == Good || q == Fair || q == Shallow
  {
    if m[SquatDepth] < 0.10 then Excellent
    else if m[SquatDepth] < 0.15 then Good
    else if m[SquatDepth] < 0.20 then Fair
    else Shallow
  }

  /** Position of a grade on the ladder, best first. */
  function Rank(q: string): nat {
    if q == Excellent then 3 else if q == Good then 2 else if q == Fair then 1 else 0
  }

  /** The depth bands: Excellent or Good exactly below the in-position depth, Shallow from 0.20 on. */
  lemma QualityBands(m: Metrics)
    requires HasKeys(m)
    ensures (AssessRepQuality(m) == Excellent || AssessRepQuality(m) == Good) <==> m[SquatDepth] < DepthThreshold
    ensures AssessRepQuality(m) == Shallow <==> m[SquatDepth] >= 0.20
  {
  }

  /** A deeper squat never gets a worse grade. */
  lemma QualityMonotone(m1: Metrics, m2: Metrics)
    requires HasKeys(m1) && HasKeys(m2)
    requires m1[SquatDepth] <= m2[SquatDepth]
    ensures Rank(AssessRepQuality(m1)) >= Rank(AssessRepQuality(m2))
  {
  }

  const InPositionInstruction := "FULL SQUAT - Hold at bottom"
  const ReturnInstruction := "STAND UP - Return to top"

  /**
   * `get_ready_instruction`; `lastMetrics` is the optional `_last_metrics`
   * attribute, which nothing in the engine ever sets.
   */
  function ReadyInstruction(lastMetrics: Option<Metrics>): (r: string)
    requires lastMetrics.Some? ==> HasKeys(lastMetrics.value)
    ensures lastMetrics.None? ==> r == "READY - Squat down"
    ensures |r| >= 18 && r[..18] == "READY - Squat down"
  {
    var status :=
      if lastMetrics.Some? && lastMetrics.value[KneeAngle] < KneeAngleThreshold then
        if lastMetrics.value[SquatDepth] >= DepthThreshold then " - GO DEEPER!" else " - FULL DEPTH!"
      else "";
    "READY - Squat down" + status
  }

  /** `update_best_metrics`: keep the deepest frame, with its knee angle. */
  function UpdateBestMetrics(current: Metrics, best: Metrics): (b: Metrics)
    requires HasKeys(current)
    ensures Get(b, SquatDepth, 1.0) == Min(Get(best, SquatDepth, 1.0), current[SquatDepth])
    ensures b != best <==> current[SquatDepth] < Get(best, SquatDepth, 1.0)
    ensures b != best ==> HasKeys(b) && b[SquatDepth] == current[SquatDepth] && b[KneeAngle] == current[KneeAngle]
    ensures b.Keys >= best.Keys
    ensures forall k :: k in best && k != SquatDepth && k != KneeAngle ==> b[k] == best[k]
  {
    if current[SquatDepth] < Get(best, SquatDepth, 1.0) then
      best[SquatDepth := current[SquatDepth]][KneeAngle := current[KneeAngle]]
    else best
  }

  /** What holds of the best metrics throughout a rep: seeded in position, kept by the merge. */
  predicate BestInvariant(best: Metrics) {
    HasKeys(best) && best[SquatDepth] < DepthThreshold
  }

  lemma EntrySeedsBest(m: Metrics)
    requires IsMetrics(m) && IsInRepPosition(m)
    ensures BestInvariant(m)
  {
  }

  lemma MergeKeepsBest(current: Metrics, best: Metrics)
    requires IsMetrics(current) && BestInvariant(best)
    ensures BestInvariant(UpdateBestMetrics(current, best))
  {
  }

  /** Grade of a counted rep: the merge only deepens the seed, so it stays Excellent or Good. */
  predicate CountedGrade(q: string) {
    q == Excellent || q == Good
  }

  lemma CountedQuality(best: Metrics)
    requires BestInvariant(best)
    ensures CountedGrade(AssessRepQuality(best))
  {
  }
}
