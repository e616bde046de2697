/**
 * The overhead-press profile of api/exercises/shoulder_press.py: elbow
 * extension and wrist height relative to the shoulders, a lockout-graded
 * ladder, and a merge that tracks the best extension and the highest wrists
 * independently.
 */
module ShoulderPressProfile {
  import opened Wrappers
  import opened Utils
  import opened MetricMaps

  const ExerciseName := "Shoulder Press"
  const CooldownFrames := 15

  const ElbowExtensionThreshold := 160.0
  const WristHeightThreshold := 0.3
  const StartingAngle := 140.0
  const StartingHeight := -0.15

  const ElbowAngle := "elbow_angle"
  const WristHeight := "wrist_height"

  predicate HasKeys(m: Metrics) {
    ElbowAngle in m && WristHeight in m
  }

  predicate IsMetrics(m: Metrics) {
    HasKeys(m)
  }

  /** `calculate_metrics`: the wrist height is the mean over both sides of wrist.y - shoulder.y (negative is above). */
  function CalculateMetrics(elbowAngle: real, leftWrist: Point, leftShoulder: Point, rightWrist: Point, rightShoulder: Point): (m: Metrics)
    ensures IsMetrics(m) && m.Keys == {ElbowAngle, WristHeight}
    ensures m[ElbowAngle] == elbowAngle
    ensures m[WristHeight] - VerticalDistance(leftWrist, leftShoulder) == VerticalDistance(rightWrist, rightShoulder) - m[WristHeight]
  {
    map[ElbowAngle := elbowAngle, WristHeight := ((leftWrist.y - leftShoulder.y) + (rightWrist.y - rightShoulder.y)) / 2.0]
  }

  /** Top: arms extended overhead. */
  predicate IsInRepPosition(m: Metrics)
    requires HasKeys(m)
  {
    m[ElbowAngle] > ElbowExtensionThreshold && m[WristHeight] < -WristHeightThreshold
  }

  /** Bottom: arms bent at shoulder level. */
  predicate IsAtStartingPosition(m: Metrics)
    requires HasKeys(m)
  {
    m[ElbowAngle] < StartingAngle && m[WristHeight] > StartingHeight
  }

  lemma PositionsDisjoint(m: Metrics)
    requires HasKeys(m)
    ensures !(IsInRepPosition(m) && IsAtStartingPosition(m))
  {
  }

  const Excellent := "Excellent - Full lockout"
  const Good := "Good - Nearly full"
  const Fair := "Fair - Partial lockout"
  const Incomplete := "Incomplete - Extend more"

  function AssessRepQuality(m: Metrics): (q: string)
    requires HasKeys(m)
    ensures q == Excellent || q == Good || q == Fair || q == Incomplete
  {
    if m[ElbowAngle] > 170.0 && Abs(m[WristHeight]) > 0.35 then Excellent
    else if m[ElbowAngle] > 165.0 && Abs(m[WristHeight]) > 0.30 then Good
    else if m[ElbowAngle] > 160.0 then Fair
    else Incomplete
  }

  function Rank(q: string): nat {
    if q == Excellent then 3 else if q == Good then 2 else if q == Fair then 1 else 0
  }

  /** Incomplete exactly when the elbows never passed the in-position extension. */
  lemma QualityBands(m: Metrics)
    requires HasKeys(m)
    ensures AssessRepQuality(m) == Incomplete <==> m[ElbowAngle] <= ElbowExtensionThreshold
  {
  }

  /** More extension and more height (in magnitude) never give a worse grade. */
  lemma QualityMonotone(m1: Metrics, m2: Metrics)
    requires HasKeys(m1) && HasKeys(m2)
    requires m1[ElbowAngle] >= m2[ElbowAngle] && Abs(m1[WristHeight]) >= Abs(m2[WristHeight])
    ensures Rank(AssessRepQuality(m1)) >= Rank(AssessRepQuality(m2))
  {
  }

  const InPositionInstruction := "OVERHEAD - Locked out"
  const ReturnInstruction := "LOWER - Control descent"

  /** `get_ready_instruction`; `lastMetrics` is the optional `_last_metrics` attribute, never set by the engine. */
  function ReadyInstruction(lastMetrics: Option<Metrics>): (r: string)
    requires lastMetrics.Some? ==> HasKeys(lastMetrics.value)
    ensures lastMetrics.None? ==> r == "READY - Press overhead"
    ensures |r| >= 22 && r[..22] == "READY - Press overhead"
  {
    var extension := if lastMetrics.Some? && lastMetrics.value[ElbowAngle] < ElbowExtensionThreshold then " - EXTEND ARMS" else "";
    var overhead := if lastMetrics.Some? && lastMetrics.value[WristHeight] >= -WristHeightThreshold then " - RAISE HIGHER" else "";
    "READY - Press overhead" + extension + overhead
  }

  /** `update_best_metrics`: the largest elbow angle (default 0) and the smallest wrist height (default 1), independently. */
  function UpdateBestMetrics(current: Metrics, best: Metrics): (b: Metrics)
    requires HasKeys(current)
    ensures Get(b, ElbowAngle, 0.0) == Max(Get(best, ElbowAngle, 0.0), current[ElbowAngle])
    ensures Get(b, WristHeight, 1.0) == Min(Get(best, WristHeight, 1.0), current[WristHeight])
    ensures b.Keys >= best.Keys
    ensures forall k :: k in best && k != ElbowAngle && k != WristHeight ==> b[k] == best[k]
  {
    var b1 := if current[ElbowAngle] > Get(best, ElbowAngle, 0.0) then best[ElbowAngle := current[ElbowAngle]] else best;
    if current[WristHeight] < Get(b1, WristHeight, 1.0) then b1[WristHeight := current[WristHeight]] else b1
  }

  predicate BestInvariant(best: Metrics) {
    HasKeys(best) && best[ElbowAngle] > ElbowExtensionThreshold
  }

  lemma EntrySeedsBest(m: Metrics)
    requires IsMetrics(m) && IsInRepPosition(m)
    ensures BestInvariant(m)
  {
  }

  lemma MergeKeepsBest(current: Metrics, best: Metrics)
    requires IsMetrics(current) && BestInvariant(best)
    ensures BestInvariant(UpdateBestMetrics(current, best))
  {
  }

  /** Grade of a counted rep: never Incomplete. */
  predicate CountedGrade(q: string) {
    q == Excellent || q == Good || q == Fair
  }

  lemma CountedQuality(best: Metrics)
    requires BestInvariant(best)
    ensures CountedGrade(AssessRepQuality(best))
  {
  }
}
