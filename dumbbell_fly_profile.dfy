/**
 * The chest-fly profile of api/exercises/dumbbell_fly.py: the wrists come
 * together at the top and spread wide at the bottom; the grade rewards the
 * widest opening reached with straight-enough arms.
 */
module DumbbellFlyProfile {
  import opened MetricMaps

  const ExerciseName := "Dumbbell Fly"
  const CooldownFrames := 15

  const WristDistanceClosed := 0.15
  const WristDistanceOpen := 0.5
  const ElbowAngleMin := 150.0

  const WristDistance := "wrist_distance"
  const ElbowAngle := "elbow_angle"
  const ArmLength := "arm_length"

  predicate HasKeys(m: Metrics) {
    WristDistance in m && ElbowAngle in m && ArmLength in m
  }

  predicate IsMetrics(m: Metrics) {
    HasKeys(m)
  }

  /** `calculate_metrics`: the wrist distance and elbow angle are inputs; the arm length is the mean of the two sides. */
  function CalculateMetrics(wristDistance: real, elbowAngle: real, leftArmLength: real, rightArmLength: real): (m: Metrics)
    ensures IsMetrics(m) && m.Keys == {WristDistance, ElbowAngle, ArmLength}
    ensures m[WristDistance] == wristDistance && m[ElbowAngle] == elbowAngle
    ensures m[ArmLength] - leftArmLength == rightArmLength - m[ArmLength]
  {
    map[WristDistance := wristDistance, ElbowAngle := elbowAngle, ArmLength := (leftArmLength + rightArmLength) / 2.0]
  }

  /** Closed: wrists together at the centre. */
  predicate IsInRepPosition(m: Metrics)
    requires HasKeys(m)
  {
    m[WristDistance] < WristDistanceClosed
  }

  /** Open: arms spread wide with the elbows nearly straight. */
  predicate IsAtStartingPosition(m: Metrics)
    requires HasKeys(m)
  {
    m[WristDistance] > WristDistanceOpen && m[ElbowAngle] > ElbowAngleMin
  }

  lemma PositionsDisjoint(m: Metrics)
    requires HasKeys(m)
    ensures !(IsInRepPosition(m) && IsAtStartingPosition(m))
  {
  }

  const Excellent := "Excellent - Full chest stretch"
  const Good := "Good - Good stretch"
  const BentElbows := "Bent elbows - Keep arms straighter"
  const Shallow := "Shallow - Open wider"

  function AssessRepQuality(m: Metrics): (q: string)
    requires HasKeys(m)
    ensures q == Excellent || q == Good || q == BentElbows || q == Shallow
  {
    if m[WristDistance] > 0.6 && m[ElbowAngle] > 150.0 then Excellent
    else if m[WristDistance] > 0.5 then Good
    else if m[ElbowAngle] < 140.0 then BentElbows
    else Shallow
  }

  /** The order of the checks: elbows are only criticised once the opening is at most 0.5. */
  lemma QualityOrder(m: Metrics)
    requires HasKeys(m)
    ensures AssessRepQuality(m) == BentElbows <==> m[WristDistance] <= WristDistanceOpen && m[ElbowAngle] < 140.0
    ensures (AssessRepQuality(m) == Excellent || AssessRepQuality(m) == Good) <==> m[WristDistance] > WristDistanceOpen
  {
  }

  const InPositionInstruction := "CLOSED - Squeeze chest"
  const ReturnInstruction := "OPEN - Stretch chest wide"
  const ReadyInstruction := "READY - Bring dumbbells together"

  /**
   * `update_best_metrics`: a frame replaces the best wrist distance and elbow
   * angle only when it opens wider (default 0) with the elbows above 150;
   * otherwise the best is untouched.
   */
  function UpdateBestMetrics(current: Metrics, best: Metrics): (b: Metrics)
    requires HasKeys(current)
    ensures !(current[WristDistance] > Get(best, WristDistance, 0.0) && current[ElbowAngle] > ElbowAngleMin) ==> b == best
    ensures Get(b, WristDistance, 0.0) >= Get(best, WristDistance, 0.0)
    ensures current[WristDistance] > Get(best, WristDistance, 0.0) && current[ElbowAngle] > ElbowAngleMin ==>
      WristDistance in b && ElbowAngle in b && b[WristDistance] == current[WristDistance] && b[ElbowAngle] == current[ElbowAngle]
    ensures b.Keys >= best.Keys
    ensures forall k :: k in best && k != WristDistance && k != ElbowAngle ==> b[k] == best[k]
  {
    if current[WristDistance] > Get(best, WristDistance, 0.0) && current[ElbowAngle] > ElbowAngleMin then
      best[WristDistance := current[WristDistance]][ElbowAngle := current[ElbowAngle]]
    else best
  }

  /**
   * What holds of the best metrics throughout a rep: the opening never
   * exceeds the open threshold. The entry frame is closed, and a wider frame
   * with straight elbows is the return to start, which the engine does not
   * merge.
   */
  predicate BestInvariant(best: Metrics) {
    HasKeys(best) && best[WristDistance] <= WristDistanceOpen
  }

  lemma EntrySeedsBest(m: Metrics)
    requires IsMetrics(m) && IsInRepPosition(m)
    ensures BestInvariant(m)
  {
  }

  /** The merge as the engine applies it, on a frame that is not the return to start. */
  lemma MergeKeepsBest(current: Metrics, best: Metrics)
    requires IsMetrics(current) && BestInvariant(best) && !IsAtStartingPosition(current)
    ensures BestInvariant(UpdateBestMetrics(current, best))
  {
  }

  /** A counted fly is never graded Excellent or Good: its best opening is at most the open threshold. */
  predicate CountedGrade(q: string) {
    q == BentElbows || q == Shallow
  }

  lemma CountedQuality(best: Metrics)
    requires BestInvariant(best)
    ensures CountedGrade(AssessRepQuality(best))
  {
  }
}
