/**
 * The front-raise profile of api/exercises/front_raise.py: wrist height
 * relative to the shoulders and arm elevation, graded on how high the
 * wrists came.
 */
module FrontRaiseProfile {
  import opened Utils
  import opened MetricMaps

  const ExerciseName := "Front Raise"
  const CooldownFrames := 15

  const WristHeightThreshold := -0.2
  const ArmAngleThreshold := 100.0

  const WristHeight := "wrist_height"
  const ArmAngle := "arm_angle"

  predicate HasKeys(m: Metrics) {
    WristHeight in m && ArmAngle in m
  }

  predicate IsMetrics(m: Metrics) {
    HasKeys(m)
  }

  /** `calculate_metrics`: the wrist height is the mean of the two wrist-to-shoulder vertical offsets. */
  function CalculateMetrics(leftWrist: Point, leftShoulder: Point, rightWrist: Point, rightShoulder: Point, armAngle: real): (m: Metrics)
    ensures IsMetrics(m) && m.Keys == {WristHeight, ArmAngle}
    ensures m[ArmAngle] == armAngle
    ensures m[WristHeight] - VerticalDistance(leftWrist, leftShoulder) == VerticalDistance(rightWrist, rightShoulder) - m[WristHeight]
  {
    map[WristHeight := (VerticalDistance(leftWrist, leftShoulder) + VerticalDistance(rightWrist, rightShoulder)) / 2.0,
        ArmAngle := armAngle]
  }

  /** Top: wrists above the shoulders or arm raised; either suffices. */
  predicate IsInRepPosition(m: Metrics)
    requires HasKeys(m)
  {
    m[WristHeight] < WristHeightThreshold || m[ArmAngle] < ArmAngleThreshold
  }

  /** Bottom: arms down at the sides. */
  predicate IsAtStartingPosition(m: Metrics)
    requires HasKeys(m)
  {
    m[WristHeight] > 0.0 && m[ArmAngle] > 160.0
  }

  lemma PositionsDisjoint(m: Metrics)
    requires HasKeys(m)
    ensures !(IsInRepPosition(m) && IsAtStartingPosition(m))
  {
  }

  const Excellent := "Excellent - Above shoulders"
  const Good := "Good - Shoulder height"
  const Low := "Low - Raise higher"

  function AssessRepQuality(m: Metrics): (q: string)
    requires HasKeys(m)
    ensures q == Excellent || q == Good || q == Low
  {
    if m[WristHeight] < -0.25 then Excellent
    else if m[WristHeight] < -0.15 then Good
    else Low
  }

  function Rank(q: string): nat {
    if q == Excellent then 2 else if q == Good then 1 else 0
  }

  /** Wrists that reached the in-position height are never graded Low. */
  lemma QualityBands(m: Metrics)
    requires HasKeys(m)
    ensures m[WristHeight] < WristHeightThreshold ==> AssessRepQuality(m) != Low
    ensures AssessRepQuality(m) == Low <==> m[WristHeight] >= -0.15
  {
  }

  /** Higher wrists (a smaller offset) never give a worse grade. */
  lemma QualityMonotone(m1: Metrics, m2: Metrics)
    requires HasKeys(m1) && HasKeys(m2)
    requires m1[WristHeight] <= m2[WristHeight]
    ensures Rank(AssessRepQuality(m1)) >= Rank(AssessRepQuality(m2))
  {
  }

  const InPositionInstruction := "RAISED - Hold at top"
  const ReturnInstruction := "LOWER - Control descent"
  const ReadyInstruction := "READY - Raise arms forward"

  /** `update_best_metrics`: the smallest wrist height (default 1), with the arm angle of that frame. */
  function UpdateBestMetrics(current: Metrics, best: Metrics): (b: Metrics)
    requires HasKeys(current)
    ensures Get(b, WristHeight, 1.0) == Min(Get(best, WristHeight, 1.0), current[WristHeight])
    ensures b != best <==> current[WristHeight] < Get(best, WristHeight, 1.0)
    ensures b != best ==> HasKeys(b) && b[WristHeight] == current[WristHeight] && b[ArmAngle] == current[ArmAngle]
    ensures b.Keys >= best.Keys
    ensures forall k :: k in best && k != WristHeight && k != ArmAngle ==> b[k] == best[k]
  {
    if current[WristHeight] < Get(best, WristHeight, 1.0) then
      best[WristHeight := current[WristHeight]][ArmAngle := current[ArmAngle]]
    else best
  }

  /** Entry may come from the arm angle alone, so no grade is guaranteed; the keys are. */
  predicate BestInvariant(best: Metrics) {
    HasKeys(best)
  }

  lemma EntrySeedsBest(m: Metrics)
    requires IsMetrics(m) && IsInRepPosition(m)
    ensures BestInvariant(m)
  {
  }

  lemma MergeKeepsBest(current: Metrics, best: Metrics)
    requires IsMetrics(current) && BestInvariant(best)
    ensures BestInvariant(UpdateBestMetrics(current, best))
  {
  }

  predicate CountedGrade(q: string) {
    q == Excellent || q == Good || q == Low
  }

  lemma CountedQuality(best: Metrics)
    requires BestInvariant(best)
    ensures CountedGrade(AssessRepQuality(best))
  {
  }
}
