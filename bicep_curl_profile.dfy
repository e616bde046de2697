/**
 * The bicep-curl profile of exercises/bicep_curl.py: elbow flexion, graded
 * on the smallest elbow angle of the rep.
 */
module BicepCurlProfile {
  import opened Utils
  import opened MetricMaps

  const ExerciseName := "Bicep Curl"
  const CooldownFrames := 15

  const ElbowFlexionThreshold := 50.0
  const ElbowExtensionThreshold := 160.0

  const ElbowAngle := "elbow_angle"
  const CurlHeight := "curl_height"

  predicate HasKeys(m: Metrics) {
    ElbowAngle in m && CurlHeight in m
  }

  /** What `calculate_metrics` produces: both keys, and a curl height that is an absolute value. */
  predicate IsMetrics(m: Metrics) {
    HasKeys(m) && m[CurlHeight] >= 0.0
  }

  /** `calculate_metrics`: the curl height is the absolute mean of the two shoulder-to-wrist vertical offsets. */
  function CalculateMetrics(elbowAngle: real, leftShoulder: Point, leftWrist: Point, rightShoulder: Point, rightWrist: Point): (m: Metrics)
    ensures IsMetrics(m) && m.Keys == {ElbowAngle, CurlHeight}
    ensures m[ElbowAngle] == elbowAngle
    ensures var mean := (VerticalDistance(leftShoulder, leftWrist) + VerticalDistance(rightShoulder, rightWrist)) / 2.0;
      m[CurlHeight] == mean || m[CurlHeight] == -mean
  {
    map[ElbowAngle := elbowAngle,
        CurlHeight := Abs((VerticalDistance(leftShoulder, leftWrist) + VerticalDistance(rightShoulder, rightWrist)) / 2.0)]
  }

  /** Top: elbow fully flexed. */
  predicate IsInRepPosition(m: Metrics)
    requires HasKeys(m)
  {
    m[ElbowAngle] < ElbowFlexionThreshold
  }

  /** Bottom: arms extended. */
  predicate IsAtStartingPosition(m: Metrics)
    requires HasKeys(m)
  {
    m[ElbowAngle] > ElbowExtensionThreshold
  }

  lemma PositionsDisjoint(m: Metrics)
    requires HasKeys(m)
    ensures !(IsInRepPosition(m) && IsAtStartingPosition(m))
  {
  }

  const Excellent := "Excellent - Full contraction"
  const Good := "Good - Full curl"
  const Partial := "Partial - Curl higher"

  function AssessRepQuality(m: Metrics): (q: string)
    requires HasKeys(m)
    ensures q == Excellent || q == Good || q == Partial
  {
    if m[ElbowAngle] < 40.0 then Excellent
    else if m[ElbowAngle] < 50.0 then Good
    else Partial
  }

  function Rank(q: string): nat {
    if q == Excellent then 2 else if q == Good then 1 else 0
  }

  /** Partial exactly when the elbow never flexed into the in-position range. */
  lemma QualityBands(m: Metrics)
    requires HasKeys(m)
    ensures AssessRepQuality(m) == Partial <==> !IsInRepPosition(m)
  {
  }

  lemma QualityMonotone(m1: Metrics, m2: Metrics)
    requires HasKeys(m1) && HasKeys(m2)
    requires m1[ElbowAngle] <= m2[ElbowAngle]
    ensures Rank(AssessRepQuality(m1)) >= Rank(AssessRepQuality(m2))
  {
  }

  const InPositionInstruction := "CURLED - Squeeze biceps"
  const ReturnInstruction := "LOWER - Control descent"
  const ReadyInstruction := "READY - Curl weights to shoulders"

  /** `update_best_metrics`: the smallest elbow angle (default 180), with the curl height of that frame. */
  function UpdateBestMetrics(current: Metrics, best: Metrics): (b: Metrics)
    requires HasKeys(current)
    ensures Get(b, ElbowAngle, 180.0) == Min(Get(best, ElbowAngle, 180.0), current[ElbowAngle])
    ensures b != best <==> current[ElbowAngle] < Get(best, ElbowAngle, 180.0)
    ensures b != best ==> HasKeys(b) && b[ElbowAngle] == current[ElbowAngle] && b[CurlHeight] == current[CurlHeight]
    ensures b.Keys >= best.Keys
    ensures forall k :: k in best && k != ElbowAngle && k != CurlHeight ==> b[k] == best[k]
  {
    if current[ElbowAngle] < Get(best, ElbowAngle, 180.0) then
      best[ElbowAngle := current[ElbowAngle]][CurlHeight := current[CurlHeight]]
    else best
  }

  predicate BestInvariant(best: Metrics) {
    HasKeys(best) && best[ElbowAngle] < ElbowFlexionThreshold
  }

  lemma EntrySeedsBest(m: Metrics)
    requires IsMetrics(m) && IsInRepPosition(m)
    ensures BestInvariant(m)
  {
  }

  lemma MergeKeepsBest(current: Metrics, best: Metrics)
    requires IsMetrics(current) && BestInvariant(best)
    ensures BestInvariant(UpdateBestMetrics(current, best))
  {
  }

  predicate CountedGrade(q: string) {
    q == Excellent || q == Good
  }

  lemma CountedQuality(best: Metrics)
    requires BestInvariant(best)
    ensures CountedGrade(AssessRepQuality(best))
  {
  }
}
