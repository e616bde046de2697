/**
 * The bench-press profile of exercises/bench_press.py: elbow lockout at the
 * top, bar at the chest at the bottom, graded on the largest elbow angle.
 */
module BenchPressProfile {
  import opened MetricMaps

  const ExerciseName := "Bench Press"
  const CooldownFrames := 20

  const ElbowExtensionThreshold := 165.0
  const ElbowFlexionThreshold := 90.0
  const WristShoulderDistance := 0.12

  const ElbowAngle := "elbow_angle"
  const PressDepth := "press_depth"

  predicate HasKeys(m: Metrics) {
    ElbowAngle in m && PressDepth in m
  }

  predicate IsMetrics(m: Metrics) {
    HasKeys(m)
  }

  /** `calculate_metrics`: the press depth is the mean of the two wrist-to-shoulder distances. */
  function CalculateMetrics(elbowAngle: real, leftDepth: real, rightDepth: real): (m: Metrics)
    ensures IsMetrics(m) && m.Keys == {ElbowAngle, PressDepth}
    ensures m[ElbowAngle] == elbowAngle
    ensures m[PressDepth] - leftDepth == rightDepth - m[PressDepth]
  {
    map[ElbowAngle := elbowAngle, PressDepth := (leftDepth + rightDepth) / 2.0]
  }

  /** Top: arms locked out. */
  predicate IsInRepPosition(m: Metrics)
    requires HasKeys(m)
  {
    m[ElbowAngle] > ElbowExtensionThreshold
  }

  /** Bottom: bar at the chest, elbows bent. */
  predicate IsAtStartingPosition(m: Metrics)
    requires HasKeys(m)
  {
    m[ElbowAngle] < ElbowFlexionThreshold && m[PressDepth] < WristShoulderDistance
  }

  lemma PositionsDisjoint(m: Metrics)
    requires HasKeys(m)
    ensures !(IsInRepPosition(m) && IsAtStartingPosition(m))
  {
  }

  const Excellent := "Excellent - Full lockout"
  const Good := "Good - Nearly locked"
  const Incomplete := "Incomplete - Lock arms"

  function AssessRepQuality(m: Metrics): (q: string)
    requires HasKeys(m)
    ensures q == Excellent || q == Good || q == Incomplete
  {
    if m[ElbowAngle] > 170.0 then Excellent
    else if m[ElbowAngle] > 165.0 then Good
    else Incomplete
  }

  function Rank(q: string): nat {
    if q == Excellent then 2 else if q == Good then 1 else 0
  }

  /** Incomplete exactly when the elbows never reached the in-position lockout. */
  lemma QualityBands(m: Metrics)
    requires HasKeys(m)
    ensures AssessRepQuality(m) == Incomplete <==> !IsInRepPosition(m)
  {
  }

  lemma QualityMonotone(m1: Metrics, m2: Metrics)
    requires HasKeys(m1) && HasKeys(m2)
    requires m1[ElbowAngle] >= m2[ElbowAngle]
    ensures Rank(AssessRepQuality(m1)) >= Rank(AssessRepQuality(m2))
  {
  }

  const InPositionInstruction := "LOCKED OUT - Hold"
  const ReturnInstruction := "LOWER - Touch chest"
  const ReadyInstruction := "READY - Press to lockout"

  /** `update_best_metrics`: only the elbow angle is tracked, as a maximum (default 0). */
  function UpdateBestMetrics(current: Metrics, best: Metrics): (b: Metrics)
    requires HasKeys(current)
    ensures Get(b, ElbowAngle, 0.0) == Max(Get(best, ElbowAngle, 0.0), current[ElbowAngle])
    ensures b.Keys >= best.Keys
    ensures forall k :: k in best && k != ElbowAngle ==> b[k] == best[k]
    ensures forall k :: k in b && k != ElbowAngle ==> k in best
  {
    if current[ElbowAngle] > Get(best, ElbowAngle, 0.0) then best[ElbowAngle := current[ElbowAngle]] else best
  }

  predicate BestInvariant(best: Metrics) {
    HasKeys(best) && best[ElbowAngle] > ElbowExtensionThreshold
  }

  lemma EntrySeedsBest(m: Metrics)
    requires IsMetrics(m) && IsInRepPosition(m)
    ensures BestInvariant(m)
  {
  }

  lemma MergeKeepsBest(current: Metrics, best: Metrics)
    requires IsMetrics(current) && BestInvariant(best)
    ensures BestInvariant(UpdateBestMetrics(current, best))
  {
  }

  predicate CountedGrade(q: string) {
    q == Excellent || q == Good
  }

  lemma CountedQuality(best: Metrics)
    requires BestInvariant(best)
    ensures CountedGrade(AssessRepQuality(best))
  {
  }
}
