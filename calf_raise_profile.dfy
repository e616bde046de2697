/**
 * The calf-raise profile of api/exercises/calf_raise.py: ankle extension
 * and heel lift, graded on the heel height.
 */
module CalfRaiseProfile {
  import opened Utils
  import opened MetricMaps

  const ExerciseName := "Calf Raise"
  const CooldownFrames := 15

  const HeelLiftThreshold := 0.08
  const AnkleAngleExtended := 135.0
  const AnkleAngleFlexed := 100.0

  const AnkleAngle := "ankle_angle"
  const HeelHeight := "heel_height"

  predicate HasKeys(m: Metrics) {
    AnkleAngle in m && HeelHeight in m
  }

  /** What `calculate_metrics` produces: both keys, and a heel height that is an absolute value. */
  predicate IsMetrics(m: Metrics) {
    HasKeys(m) && m[HeelHeight] >= 0.0
  }

  /** `calculate_metrics`: the heel height is the absolute mean of the two heel-to-ankle vertical offsets. */
  function CalculateMetrics(ankleAngle: real, leftHeel: Point, leftAnkle: Point, rightHeel: Point, rightAnkle: Point): (m: Metrics)
    ensures IsMetrics(m) && m.Keys == {AnkleAngle, HeelHeight}
    ensures m[AnkleAngle] == ankleAngle
    ensures var mean := (VerticalDistance(leftHeel, leftAnkle) + VerticalDistance(rightHeel, rightAnkle)) / 2.0;
      m[HeelHeight] == mean || m[HeelHeight] == -mean
  {
    map[AnkleAngle := ankleAngle,
        HeelHeight := Abs((VerticalDistance(leftHeel, leftAnkle) + VerticalDistance(rightHeel, rightAnkle)) / 2.0)]
  }

  /** Top: heels raised or ankles extended; either suffices. */
  predicate IsInRepPosition(m: Metrics)
    requires HasKeys(m)
  {
    m[AnkleAngle] > AnkleAngleExtended || m[HeelHeight] > HeelLiftThreshold
  }

  /** Bottom: heels down and ankles flexed. */
  predicate IsAtStartingPosition(m: Metrics)
    requires HasKeys(m)
  {
    m[AnkleAngle] < AnkleAngleFlexed && m[HeelHeight] < HeelLiftThreshold * 0.5
  }

  lemma PositionsDisjoint(m: Metrics)
    requires HasKeys(m)
    ensures !(IsInRepPosition(m) && IsAtStartingPosition(m))
  {
  }

  /** Either disjunct of the in-position test alone puts the lifter in position. */
  lemma EitherDisjunctSuffices(m: Metrics)
    requires HasKeys(m)
    ensures m[AnkleAngle] > AnkleAngleExtended ==> IsInRepPosition(m)
    ensures m[HeelHeight] > HeelLiftThreshold ==> IsInRepPosition(m)
  {
  }

  const Excellent := "Excellent - Full extension"
  const Good := "Good - Adequate height"
  const Shallow := "Shallow - Raise higher"

  function AssessRepQuality(m: Metrics): (q: string)
    requires HasKeys(m)
    ensures q == Excellent || q == Good || q == Shallow
  {
    if m[HeelHeight] > 0.12 then Excellent
    else if m[HeelHeight] > 0.08 then Good
    else Shallow
  }

  function Rank(q: string): nat {
    if q == Excellent then 2 else if q == Good then 1 else 0
  }

  /** Shallow exactly when the heels never passed the lift threshold. */
  lemma QualityBands(m: Metrics)
    requires HasKeys(m)
    ensures AssessRepQuality(m) == Shallow <==> m[HeelHeight] <= HeelLiftThreshold
  {
  }

  lemma QualityMonotone(m1: Metrics, m2: Metrics)
    requires HasKeys(m1) && HasKeys(m2)
    requires m1[HeelHeight] >= m2[HeelHeight]
    ensures Rank(AssessRepQuality(m1)) >= Rank(AssessRepQuality(m2))
  {
  }

  const InPositionInstruction := "RAISED - Hold at top"
  const ReturnInstruction := "LOWER - Control descent"
  const ReadyInstruction := "READY - Push up on toes"

  /** `update_best_metrics`: the highest heel lift (default 0), with the ankle angle of that frame. */
  function UpdateBestMetrics(current: Metrics, best: Metrics): (b: Metrics)
    requires HasKeys(current)
    ensures Get(b, HeelHeight, 0.0) == Max(Get(best, HeelHeight, 0.0), current[HeelHeight])
    ensures b != best <==> current[HeelHeight] > Get(best, HeelHeight, 0.0)
    ensures b != best ==> HasKeys(b) && b[HeelHeight] == current[HeelHeight] && b[AnkleAngle] == current[AnkleAngle]
    ensures b.Keys >= best.Keys
    ensures forall k :: k in best && k != HeelHeight && k != AnkleAngle ==> b[k] == best[k]
  {
    if current[HeelHeight] > Get(best, HeelHeight, 0.0) then
      best[HeelHeight := current[HeelHeight]][AnkleAngle := current[AnkleAngle]]
    else best
  }

  /** Entry may come from the ankle alone, so no grade is guaranteed; the keys and a non-negative height are. */
  predicate BestInvariant(best: Metrics) {
    HasKeys(best) && best[HeelHeight] >= 0.0
  }

  lemma EntrySeedsBest(m: Metrics)
    requires IsMetrics(m) && IsInRepPosition(m)
    ensures BestInvariant(m)
  {
  }

  lemma MergeKeepsBest(current: Metrics, best: Metrics)
    requires IsMetrics(current) && BestInvariant(best)
    ensures BestInvariant(UpdateBestMetrics(current, best))
  {
  }

  predicate CountedGrade(q: string) {
    q == Excellent || q == Good || q == Shallow
  }

  lemma CountedQuality(best: Metrics)
    requires BestInvariant(best)
    ensures CountedGrade(AssessRepQuality(best))
  {
  }
}
