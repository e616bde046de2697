/**
 * The Romanian-deadlift profile of exercises/romanian_deadlift.py: a
 * straight-leg hip hinge graded on `stretch_depth`, the torso lean counted
 * only while the knees stay straight.
 */
module RomanianDeadliftProfile {
  import opened MetricMaps

  const ExerciseName := "Romanian Deadlift"
  const CooldownFrames := 20

  const HipAngleThreshold := 165.0
  const BottomHipAngle := 100.0
  const KneeAngleMin := 160.0
  const TorsoAngleBottom := 80.0

  const HipAngle := "hip_angle"
  const TorsoAngle := "torso_angle"
  const KneeAngle := "knee_angle"
  const StretchDepth := "stretch_depth"

  predicate HasKeys(m: Metrics) {
    HipAngle in m && TorsoAngle in m && KneeAngle in m && StretchDepth in m
  }

  /** The hamstring-stretch indicator: the torso lean if the legs are straight, otherwise 0. */
  function Stretch(torsoAngle: real, kneeAngle: real): real {
    if kneeAngle > KneeAngleMin then torsoAngle else 0.0
  }

  /** What `calculate_metrics` produces: the four keys, with the stretch derived from torso and knee. */
  predicate IsMetrics(m: Metrics) {
    HasKeys(m) && m[StretchDepth] == Stretch(m[TorsoAngle], m[KneeAngle])
  }

  function CalculateMetrics(hipAngle: real, torsoAngle: real, kneeAngle: real): (m: Metrics)
    ensures IsMetrics(m) && m.Keys == {HipAngle, TorsoAngle, KneeAngle, StretchDepth}
    ensures m[HipAngle] == hipAngle && m[TorsoAngle] == torsoAngle && m[KneeAngle] == kneeAngle
    ensures kneeAngle > KneeAngleMin ==> m[StretchDepth] == torsoAngle
    ensures kneeAngle <= KneeAngleMin ==> m[StretchDepth] == 0.0
  {
    map[HipAngle := hipAngle, TorsoAngle := torsoAngle, KneeAngle := kneeAngle,
        StretchDepth := Stretch(torsoAngle, kneeAngle)]
  }

  /** Bottom: hips hinged, torso leaning forward, knees straight. */
  predicate IsInRepPosition(m: Metrics)
    requires HasKeys(m)
  {
    m[HipAngle] < BottomHipAngle && m[KneeAngle] > KneeAngleMin && m[TorsoAngle] > TorsoAngleBottom
  }

  /** Top: standing upright, hips extended. */
  predicate IsAtStartingPosition(m: Metrics)
    requires HasKeys(m)
  {
    m[HipAngle] > HipAngleThreshold && m[TorsoAngle] < 30.0
  }

  lemma PositionsDisjoint(m: Metrics)
    requires HasKeys(m)
    ensures !(IsInRepPosition(m) && IsAtStartingPosition(m))
  {
  }

  const Excellent := "Excellent - Deep stretch, straight legs"
  const Good := "Good - Good hamstring stretch"
  const KneesBent := "Knees bent - Keep legs straighter"
  const Shallow := "Shallow - Go deeper"

  function AssessRepQuality(m: Metrics): (q: string)
    requires HasKeys(m)
    ensures q == Excellent || q == Good || q == KneesBent || q == Shallow
  {
    if m[StretchDepth] > 85.0 && m[KneeAngle] > 165.0 then Excellent
    else if m[StretchDepth] > 75.0 then Good
    else if m[KneeAngle] < 160.0 then KneesBent
    else Shallow
  }

  /**
   * The order of the checks: a stretch above 75 is always Excellent or Good,
   * whatever the knees do; the knee complaints only come below it.
   */
  lemma QualityOrder(m: Metrics)
    requires HasKeys(m)
    ensures (AssessRepQuality(m) == Excellent || AssessRepQuality(m) == Good) <==> m[StretchDepth] > 75.0
    ensures AssessRepQuality(m) == KneesBent <==> m[StretchDepth] <= 75.0 && m[KneeAngle] < 160.0
    ensures AssessRepQuality(m) == Excellent ==> m[KneeAngle] > 165.0
  {
  }

  /** On metrics as computed, bent knees zero the stretch, so the grade is then Knees bent or Shallow. */
  lemma BentKneesNoStretch(m: Metrics)
    requires IsMetrics(m) && m[KneeAngle] <= KneeAngleMin
    ensures AssessRepQuality(m) == KneesBent || AssessRepQuality(m) == Shallow
  {
  }

  const InPositionInstruction := "HINGING - Feel hamstring stretch"
  const ReturnInstruction := "STAND UP - Drive hips forward"
  const ReadyInstruction := "READY - Hinge at hips, keep legs straight"

  /** `update_best_metrics`: the deepest stretch (default 0), with hip and knee angles from that frame. */
  function UpdateBestMetrics(current: Metrics, best: Metrics): (b: Metrics)
    requires HasKeys(current)
    ensures Get(b, StretchDepth, 0.0) == Max(Get(best, StretchDepth, 0.0), current[StretchDepth])
    ensures b != best <==> current[StretchDepth] > Get(best, StretchDepth, 0.0)
    ensures b != best ==> StretchDepth in b && HipAngle in b && KneeAngle in b
                          && b[StretchDepth] == current[StretchDepth]
                          && b[HipAngle] == current[HipAngle] && b[KneeAngle] == current[KneeAngle]
    ensures b.Keys >= best.Keys
    ensures forall k :: k in best && k != StretchDepth && k != HipAngle && k != KneeAngle ==> b[k] == best[k]
  {
    if current[StretchDepth] > Get(best, StretchDepth, 0.0) then
      best[StretchDepth := current[StretchDepth]][HipAngle := current[HipAngle]][KneeAngle := current[KneeAngle]]
    else best
  }

  predicate BestInvariant(best: Metrics) {
    HasKeys(best) && best[StretchDepth] > TorsoAngleBottom
  }

  /** Entry needs straight knees and a torso lean above 80, so the seed stretch is above 80. */
  lemma EntrySeedsBest(m: Metrics)
    requires IsMetrics(m) && IsInRepPosition(m)
    ensures BestInvariant(m)
  {
  }

  lemma MergeKeepsBest(current: Metrics, best: Metrics)
    requires IsMetrics(current) && BestInvariant(best)
    ensures BestInvariant(UpdateBestMetrics(current, best))
  {
  }

  predicate CountedGrade(q: string) {
    q == Excellent || q == Good
  }

  lemma CountedQuality(best: Metrics)
    requires BestInvariant(best)
    ensures CountedGrade(AssessRepQuality(best))
  {
  }
}
