/**
 * The bent-over row profile of api/exercises/barbell_row.py: elbow flexion
 * inside a bent-over torso band, graded on the elbow angle and the
 * wrist-to-shoulder pull distance.
 */
module BarbellRowProfile {
  import opened MetricMaps

  const ExerciseName := "Barbell Row"
  const CooldownFrames := 15

  const ElbowFlexionThreshold := 90.0
  const TorsoAngleMin := 45.0
  const TorsoAngleMax := 80.0

  const ElbowAngle := "elbow_angle"
  const TorsoAngle := "torso_angle"
  const PullDistance := "pull_distance"

  predicate HasKeys(m: Metrics) {
    ElbowAngle in m && TorsoAngle in m && PullDistance in m
  }

  predicate IsMetrics(m: Metrics) {
    HasKeys(m)
  }

  /** `calculate_metrics`: the pull distance is the mean of the two wrist-to-shoulder distances. */
  function CalculateMetrics(elbowAngle: real, torsoAngle: real, leftPullDistance: real, rightPullDistance: real): (m: Metrics)
    ensures IsMetrics(m) && m.Keys == {ElbowAngle, TorsoAngle, PullDistance}
    ensures m[ElbowAngle] == elbowAngle && m[TorsoAngle] == torsoAngle
    ensures m[PullDistance] - leftPullDistance == rightPullDistance - m[PullDistance]
  {
    map[ElbowAngle := elbowAngle, TorsoAngle := torsoAngle, PullDistance := (leftPullDistance + rightPullDistance) / 2.0]
  }

  predicate BentOver(m: Metrics)
    requires HasKeys(m)
  {
    TorsoAngleMin < m[TorsoAngle] < TorsoAngleMax
  }

  /** Top: elbows pulled back while bent over. */
  predicate IsInRepPosition(m: Metrics)
    requires HasKeys(m)
  {
    m[ElbowAngle] < ElbowFlexionThreshold && BentOver(m)
  }

  /** Bottom: arms extended while bent over. */
  predicate IsAtStartingPosition(m: Metrics)
    requires HasKeys(m)
  {
    m[ElbowAngle] > 160.0 && BentOver(m)
  }

  /** The two positions exclude each other, and both need the bent-over torso band. */
  lemma PositionsDisjoint(m: Metrics)
    requires HasKeys(m)
    ensures !(IsInRepPosition(m) && IsAtStartingPosition(m))
    ensures (IsInRepPosition(m) || IsAtStartingPosition(m)) ==> 45.0 < m[TorsoAngle] < 80.0
  {
  }

  const Excellent := "Excellent - Full contraction"
  const Good := "Good - Solid pull"
  const Partial := "Partial - Pull higher"

  function AssessRepQuality(m: Metrics): (q: string)
    requires HasKeys(m)
    ensures q == Excellent || q == Good || q == Partial
  {
    if m[ElbowAngle] < 80.0 && m[PullDistance] < 0.15 then Excellent
    else if m[ElbowAngle] < 90.0 then Good
    else Partial
  }

  function Rank(q: string): nat {
    if q == Excellent then 2 else if q == Good then 1 else 0
  }

  /** Partial exactly when the elbows never flexed below the in-position threshold. */
  lemma QualityBands(m: Metrics)
    requires HasKeys(m)
    ensures AssessRepQuality(m) == Partial <==> m[ElbowAngle] >= ElbowFlexionThreshold
  {
  }

  /** A tighter elbow and a shorter pull distance never give a worse grade. */
  lemma QualityMonotone(m1: Metrics, m2: Metrics)
    requires HasKeys(m1) && HasKeys(m2)
    requires m1[ElbowAngle] <= m2[ElbowAngle] && m1[PullDistance] <= m2[PullDistance]
    ensures Rank(AssessRepQuality(m1)) >= Rank(AssessRepQuality(m2))
  {
  }

  const InPositionInstruction := "PULLING - Squeeze shoulder blades"
  const ReturnInstruction := "EXTEND - Lower with control"
  const ReadyInstruction := "READY - Hinge and pull to chest"

  /** `update_best_metrics`: the smallest elbow angle (default 180), with the pull distance of that frame. */
  function UpdateBestMetrics(current: Metrics, best: Metrics): (b: Metrics)
    requires HasKeys(current)
    ensures Get(b, ElbowAngle, 180.0) == Min(Get(best, ElbowAngle, 180.0), current[ElbowAngle])
    ensures b != best <==> current[ElbowAngle] < Get(best, ElbowAngle, 180.0)
    ensures b != best ==> ElbowAngle in b && PullDistance in b
                          && b[ElbowAngle] == current[ElbowAngle] && b[PullDistance] == current[PullDistance]
    ensures b.Keys >= best.Keys
    ensures forall k :: k in best && k != ElbowAngle && k != PullDistance ==> b[k] == best[k]
  {
    if current[ElbowAngle] < Get(best, ElbowAngle, 180.0) then
      best[ElbowAngle := current[ElbowAngle]][PullDistance := current[PullDistance]]
    else best
  }

  predicate BestInvariant(best: Metrics) {
    HasKeys(best) && best[ElbowAngle] < ElbowFlexionThreshold
  }

  lemma EntrySeedsBest(m: Metrics)
    requires IsMetrics(m) && IsInRepPosition(m)
    ensures BestInvariant(m)
  {
  }

  lemma MergeKeepsBest(current: Metrics, best: Metrics)
    requires IsMetrics(current) && BestInvariant(best)
    ensures BestInvariant(UpdateBestMetrics(current, best))
  {
  }

  predicate CountedGrade(q: string) {
    q == Excellent || q == Good
  }

  lemma CountedQuality(best: Metrics)
    requires BestInvariant(best)
    ensures CountedGrade(AssessRepQuality(best))
  {
  }
}
