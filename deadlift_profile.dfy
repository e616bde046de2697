/**
 * The conventional deadlift profile of api/exercises/deadlift.py: hip, knee
 * and torso angles, a lockout-graded ladder on the hip angle, and a merge
 * that keeps the largest hip angle and the most upright torso.
 */
module DeadliftProfile {
  import opened Utils
  import opened MetricMaps

  const ExerciseName := "Deadlift"
  const CooldownFrames := 20

  const HipAngleThreshold := 160.0
  const BottomHipAngle := 100.0
  const TorsoAngleThreshold := 30.0

  const HipAngle := "hip_angle"
  const TorsoAngle := "torso_angle"
  const KneeAngle := "knee_angle"

  predicate HasKeys(m: Metrics) {
    HipAngle in m && TorsoAngle in m && KneeAngle in m
  }

  predicate IsMetrics(m: Metrics) {
    HasKeys(m)
  }

  /** `calculate_metrics`: hip and knee angles are the means of the two sides; the torso angle is an input. */
  function CalculateMetrics(leftHipAngle: real, rightHipAngle: real, torsoAngle: real,
                            leftKneeAngle: real, rightKneeAngle: real): (m: Metrics)
    ensures IsMetrics(m) && m.Keys == {HipAngle, TorsoAngle, KneeAngle}
    ensures m[HipAngle] - leftHipAngle == rightHipAngle - m[HipAngle]
    ensures m[KneeAngle] - leftKneeAngle == rightKneeAngle - m[KneeAngle]
    ensures m[TorsoAngle] == torsoAngle
  {
    map[HipAngle := (leftHipAngle + rightHipAngle) / 2.0, TorsoAngle := torsoAngle,
        KneeAngle := (leftKneeAngle + rightKneeAngle) / 2.0]
  }

  /** Bottom: hips hinged, knees bent. */
  predicate IsInRepPosition(m: Metrics)
    requires HasKeys(m)
  {
    m[HipAngle] < BottomHipAngle && m[KneeAngle] < 160.0
  }

  /** Lockout: hips extended, torso upright. */
  predicate IsAtStartingPosition(m: Metrics)
    requires HasKeys(m)
  {
    m[HipAngle] > HipAngleThreshold && m[TorsoAngle] < TorsoAngleThreshold
  }

  lemma PositionsDisjoint(m: Metrics)
    requires HasKeys(m)
    ensures !(IsInRepPosition(m) && IsAtStartingPosition(m))
  {
  }

  const Excellent := "Excellent - Full lockout"
  const Good := "Good - Nearly locked"
  const Incomplete := "Incomplete lockout"

  function AssessRepQuality(m: Metrics): (q: string)
    requires HasKeys(m)
    ensures q == Excellent || q == Good || q == Incomplete
  {
    if m[HipAngle] > 165.0 then Excellent
    else if m[HipAngle] > 160.0 then Good
    else Incomplete
  }

  function Rank(q: string): nat {
    if q == Excellent then 2 else if q == Good then 1 else 0
  }

  /** Incomplete exactly when the best hip angle never passed the lockout threshold. */
  lemma QualityBands(m: Metrics)
    requires HasKeys(m)
    ensures AssessRepQuality(m) == Incomplete <==> m[HipAngle] <= HipAngleThreshold
  {
  }

  lemma QualityMonotone(m1: Metrics, m2: Metrics)
    requires HasKeys(m1) && HasKeys(m2)
    requires m1[HipAngle] >= m2[HipAngle]
    ensures Rank(AssessRepQuality(m1)) >= Rank(AssessRepQuality(m2))
  {
  }

  const InPositionInstruction := "PULLING - Drive through heels"
  const ReturnInstruction := "LOCKOUT - Stand fully upright"
  const ReadyInstruction := "READY - Hinge and grip bar"

  /** `update_best_metrics`: the largest hip angle (default 0) and the smallest torso angle (default 90). */
  function UpdateBestMetrics(current: Metrics, best: Metrics): (b: Metrics)
    requires HasKeys(current)
    ensures Get(b, HipAngle, 0.0) == Max(Get(best, HipAngle, 0.0), current[HipAngle])
    ensures Get(b, TorsoAngle, 90.0) == Min(Get(best, TorsoAngle, 90.0), current[TorsoAngle])
    ensures b.Keys >= best.Keys
    ensures forall k :: k in best && k != HipAngle && k != TorsoAngle ==> b[k] == best[k]
  {
    var b1 := if current[HipAngle] > Get(best, HipAngle, 0.0) then best[HipAngle := current[HipAngle]] else best;
    if current[TorsoAngle] < Get(b1, TorsoAngle, 90.0) then b1[TorsoAngle := current[TorsoAngle]] else b1
  }

  predicate BestInvariant(best: Metrics) {
    HasKeys(best)
  }

  lemma EntrySeedsBest(m: Metrics)
    requires IsMetrics(m) && IsInRepPosition(m)
    ensures BestInvariant(m)
  {
  }

  lemma MergeKeepsBest(current: Metrics, best: Metrics)
    requires IsMetrics(current) && BestInvariant(best)
    ensures BestInvariant(UpdateBestMetrics(current, best))
  {
  }

  /** No grade is excluded for a counted deadlift: the lockout frame itself is never merged. */
  predicate CountedGrade(q: string) {
    q == Excellent || q == Good || q == Incomplete
  }

  lemma CountedQuality(best: Metrics)
    requires BestInvariant(best)
    ensures CountedGrade(AssessRepQuality(best))
  {
  }
}
