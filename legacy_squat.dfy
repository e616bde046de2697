/**
 * The standalone squat detector of squat.py. It averages the two knee
 * angles, needs both the angle and the hip-to-knee depth for a full squat,
 * counts a squat on the return to standing, and has no cooldown check: the
 * `cooldown_frames=30` it hands to its parent is never consulted.
 */
module LegacySquat {
  import opened Wrappers

  datatype SquatRecord = SquatRecord(number: nat, minAngle: real, minDepth: real, quality: string)

  datatype SquatState = SquatState(
    squatCount: nat,
    inSquatPosition: bool,
    returnedToStanding: bool,
    minAngleAchieved: Option<real>,
    minDepthAchieved: Option<real>,
    log: seq<SquatRecord>)

  function Init(): SquatState {
    SquatState(0, false, true, None, None, [])
  }

  /** `is_standing_position`: knees nearly straight and hips well above the knees. */
  predicate IsStandingPosition(avgKneeAngle: real, squatDepth: real) {
    avgKneeAngle > 160.0 && squatDepth > 0.25
  }

  predicate IsFullSquat(avgKneeAngle: real, squatDepth: real, angleThreshold: real, depthThreshold: real) {
    avgKneeAngle < angleThreshold && squatDepth < depthThreshold
  }

  /** With an angle threshold of at most 160 a frame is never both standing and in a full squat. */
  lemma StandingExcludesFullSquat(avgKneeAngle: real, squatDepth: real, angleThreshold: real, depthThreshold: real)
    requires angleThreshold <= 160.0 || depthThreshold <= 0.25
    ensures !(IsStandingPosition(avgKneeAngle, squatDepth) && IsFullSquat(avgKneeAngle, squatDepth, angleThreshold, depthThreshold))
  {
  }

  const AtgBand := "ATG (Ass to Grass)"
  const FullBand := "Full depth / Parallel"
  const BelowBand := "Just below parallel"
  const AboveBand := "Above parallel"

  function DepthBand(minDepth: real): string {
    if minDepth < 0.10 then AtgBand
    else if minDepth < 0.15 then FullBand
    else if minDepth < 0.20 then BelowBand
    else AboveBand
  }

  function AngleNote(minAngle: real): string {
    if minAngle < 70.0 then " - Deep" else if minAngle < 90.0 then " - Good" else ""
  }

  predicate StartsWith(s: string, prefix: string) {
    |prefix| <= |s| && s[..|prefix|] == prefix
  }

  /** The quality label of `_log_squat`: a depth band, then an angle note. */
  function SquatQuality(minAngle: real, minDepth: real): (q: string)
    ensures StartsWith(q, DepthBand(minDepth))
    ensures q[|DepthBand(minDepth)|..] == AngleNote(minAngle)
    ensures minAngle >= 90.0 <==> q == DepthBand(minDepth)
  {
    DepthBand(minDepth) + AngleNote(minAngle)
  }

  /** A depth under 0.15 always lands in one of the two deep bands. */
  lemma DeepSquatBand(minAngle: real, minDepth: real)
    requires minDepth < 0.15
    ensures StartsWith(SquatQuality(minAngle, minDepth), AtgBand) || StartsWith(SquatQuality(minAngle, minDepth), FullBand)
  {
  }

  /** The depth bands are ordered: a deeper squat never lands in a shallower band. */
  function BandRank(band: string): nat {
    if band == AtgBand then 3 else if band == FullBand then 2 else if band == BelowBand then 1 else 0
  }

  lemma DepthBandMonotone(d1: real, d2: real)
    requires d1 <= d2
    ensures BandRank(DepthBand(d1)) >= BandRank(DepthBand(d2))
  {
  }

  predicate WellFormed(s: SquatState) {
    s.inSquatPosition ==> s.minAngleAchieved.Some? && s.minDepthAchieved.Some?
  }

  /** One call of `on_joints_detected`, given both knee angles and the depth (None when undetected). */
  function Step(s: SquatState, angleThreshold: real, depthThreshold: real,
                leftKneeAngle: Option<real>, rightKneeAngle: Option<real>, squatDepth: Option<real>): (t: SquatState)
    requires WellFormed(s)
    ensures WellFormed(t)
  {
    if leftKneeAngle.None? || rightKneeAngle.None? || squatDepth.None? then s
    else
      var avg := (leftKneeAngle.value + rightKneeAngle.value) / 2.0;
      var depth := squatDepth.value;
      var s1 :=
        if IsStandingPosition(avg, depth) && s.inSquatPosition then
          var a := s.minAngleAchieved.value;
          var d := s.minDepthAchieved.value;
          s.(returnedToStanding := true, inSquatPosition := false, squatCount := s.squatCount + 1,
             log := s.log + [SquatRecord(s.squatCount + 1, a, d, SquatQuality(a, d))])
        else s;
      if IsFullSquat(avg, depth, angleThreshold, depthThreshold) && !s1.inSquatPosition && s1.returnedToStanding then
        s1.(inSquatPosition := true, returnedToStanding := false,
            minAngleAchieved := Some(avg), minDepthAchieved := Some(depth))
      else if s1.inSquatPosition then
        s1.(minAngleAchieved := Some(if avg < s1.minAngleAchieved.value then avg else s1.minAngleAchieved.value),
            minDepthAchieved := Some(if depth < s1.minDepthAchieved.value then depth else s1.minDepthAchieved.value))
      else s1
  }

  /** A frame where a knee angle or the depth is missing changes nothing at all. */
  lemma MissingInputNoChange(s: SquatState, angleThreshold: real, depthThreshold: real,
                             leftKneeAngle: Option<real>, rightKneeAngle: Option<real>, squatDepth: Option<real>)
    requires WellFormed(s)
    requires leftKneeAngle.None? || rightKneeAngle.None? || squatDepth.None?
    ensures Step(s, angleThreshold, depthThreshold, leftKneeAngle, rightKneeAngle, squatDepth) == s
  {
  }

  /**
   * The count goes up by at most one, exactly when the lifter stands while in
   * the squat position; there is no cooldown condition.
   */
  lemma StepCounting(s: SquatState, angleThreshold: real, depthThreshold: real, left: real, right: real, depth: real)
    requires WellFormed(s)
    ensures var t := Step(s, angleThreshold, depthThreshold, Some(left), Some(right), Some(depth));
      && (t.squatCount == s.squatCount || t.squatCount == s.squatCount + 1)
      && (t.squatCount == s.squatCount + 1 <==> IsStandingPosition((left + right) / 2.0, depth) && s.inSquatPosition)
  {
  }

  /**
   * Entry seeds the minima from the frame; with an overlap-free angle
   * threshold no frame both completes and starts a squat.
   */
  lemma EntrySeedsMinima(s: SquatState, angleThreshold: real, depthThreshold: real, left: real, right: real, depth: real)
    requires WellFormed(s) && s.returnedToStanding == !s.inSquatPosition
    requires angleThreshold <= 160.0
    ensures var t := Step(s, angleThreshold, depthThreshold, Some(left), Some(right), Some(depth));
      var avg := (left + right) / 2.0;
      && (!s.inSquatPosition && t.inSquatPosition <==> IsFullSquat(avg, depth, angleThreshold, depthThreshold) && !s.inSquatPosition)
      && (!s.inSquatPosition && t.inSquatPosition ==> t.minAngleAchieved == Some(avg) && t.minDepthAchieved == Some(depth))
      && (t.squatCount > s.squatCount ==> !t.inSquatPosition)
  {
    StandingExcludesFullSquat((left + right) / 2.0, depth, angleThreshold, depthThreshold);
  }

  /** While the squat continues, the tracked minima never increase. */
  lemma MinimaNonIncreasing(s: SquatState, angleThreshold: real, depthThreshold: real, left: real, right: real, depth: real)
    requires WellFormed(s)
    requires s.inSquatPosition
    ensures var t := Step(s, angleThreshold, depthThreshold, Some(left), Some(right), Some(depth));
      t.inSquatPosition && t.squatCount == s.squatCount ==>
        t.minAngleAchieved.value <= s.minAngleAchieved.value && t.minDepthAchieved.value <= s.minDepthAchieved.value
  {
  }

  /**
   * The two separate `if`s let one frame complete a squat and start the next
   * when the thresholds overlap: with an angle threshold of 170 and a depth
   * threshold of 0.3, a frame at 165 degrees and depth 0.27 does both.
   */
  lemma OverlappingThresholdsCompleteAndStart()
    ensures var s := SquatState(0, true, false, Some(80.0), Some(0.1), []);
      var t := Step(s, 170.0, 0.3, Some(165.0), Some(165.0), Some(0.27));
      t.squatCount == 1 && t.inSquatPosition && t.minAngleAchieved == Some(165.0)
  {
  }

  /**
   * The reachable-state invariant: complementary flags, minima present and
   * inside the full-squat thresholds during a squat, and one correctly
   * labelled record per counted squat whose depth was a full squat's.
   */
  predicate Invariant(s: SquatState, angleThreshold: real, depthThreshold: real) {
    && WellFormed(s)
    && s.returnedToStanding == !s.inSquatPosition
    && (s.inSquatPosition ==> s.minAngleAchieved.value < angleThreshold && s.minDepthAchieved.value < depthThreshold)
    && |s.log| == s.squatCount
    && (forall i :: 0 <= i < |s.log| ==>
          s.log[i].number == i + 1 && s.log[i].minDepth < depthThreshold
          && s.log[i].quality == SquatQuality(s.log[i].minAngle, s.log[i].minDepth))
  }

  lemma StepInvariant(s: SquatState, angleThreshold: real, depthThreshold: real,
                      left: Option<real>, right: Option<real>, depth: Option<real>)
    requires Invariant(s, angleThreshold, depthThreshold)
    ensures Invariant(Step(s, angleThreshold, depthThreshold, left, right, depth), angleThreshold, depthThreshold)
  {
  }

  datatype SquatFrame = SquatFrame(leftKneeAngle: Option<real>, rightKneeAngle: Option<real>, squatDepth: Option<real>)

  function Run(s: SquatState, angleThreshold: real, depthThreshold: real, fs: seq<SquatFrame>): (t: SquatState)
    requires WellFormed(s)
    ensures WellFormed(t)
    decreases |fs|
  {
    if fs == [] then s
    else Run(Step(s, angleThreshold, depthThreshold, fs[0].leftKneeAngle, fs[0].rightKneeAngle, fs[0].squatDepth),
             angleThreshold, depthThreshold, fs[1..])
  }

  lemma {:induction false} RunInvariant(s: SquatState, angleThreshold: real, depthThreshold: real, fs: seq<SquatFrame>)
    requires Invariant(s, angleThreshold, depthThreshold)
    ensures Invariant(Run(s, angleThreshold, depthThreshold, fs), angleThreshold, depthThreshold)
    decreases |fs|
  {
    if fs != [] {
      StepInvariant(s, angleThreshold, depthThreshold, fs[0].leftKneeAngle, fs[0].rightKneeAngle, fs[0].squatDepth);
      RunInvariant(Step(s, angleThreshold, depthThreshold, fs[0].leftKneeAngle, fs[0].rightKneeAngle, fs[0].squatDepth),
                   angleThreshold, depthThreshold, fs[1..]);
    }
  }

  /** With the default depth threshold of 0.15, every logged squat is labelled ATG or Full depth. */
  lemma LoggedSquatsDeep(fs: seq<SquatFrame>, i: int)
    requires 0 <= i < |Run(Init(), 100.0, 0.15, fs).log|
    ensures var q := Run(Init(), 100.0, 0.15, fs).log[i].quality; StartsWith(q, AtgBand) || StartsWith(q, FullBand)
  {
    RunInvariant(Init(), 100.0, 0.15, fs);
    var r := Run(Init(), 100.0, 0.15, fs).log[i];
    DeepSquatBand(r.minAngle, r.minDepth);
  }

  class LegacySquatDetector {
    const angleThreshold: real
    const depthThreshold: real
    /** Passed to the parent angle handler and never consulted by this detector. */
    const cooldownFrames: int
    var squatCount: nat
    var inSquatPosition: bool
    var returnedToStanding: bool
    var minAngleAchieved: Option<real>
    var minDepthAchieved: Option<real>
    var log: seq<SquatRecord>

    function State(): SquatState
      reads this
    {
      SquatState(squatCount, inSquatPosition, returnedToStanding, minAngleAchieved, minDepthAchieved, log)
    }

    predicate Valid()
      reads this
    {
      Invariant(State(), angleThreshold, depthThreshold)
    }

    constructor (angleThreshold: real := 100.0, depthThreshold: real := 0.15)
      ensures this.angleThreshold == angleThreshold && this.depthThreshold == depthThreshold
      ensures cooldownFrames == 30 && Valid() && State() == Init()
    {
      this.angleThreshold := angleThreshold;
      this.depthThreshold := depthThreshold;
      cooldownFrames := 30;
      squatCount := 0;
      inSquatPosition := false;
      returnedToStanding := true;
      minAngleAchieved := None;
      minDepthAchieved := None;
      log := [];
    }

    /** `on_joints_detected`; returns the logged record when this frame completed a squat. */
    method OnJointsDetected(leftKneeAngle: Option<real>, rightKneeAngle: Option<real>, squatDepth: Option<real>)
      returns (completed: Option<SquatRecord>)
      requires Valid()
      modifies this
      ensures Valid()
      ensures State() == Step(old(State()), angleThreshold, depthThreshold, leftKneeAngle, rightKneeAngle, squatDepth)
      ensures completed.Some? <==> squatCount == old(squatCount) + 1
      ensures completed.Some? ==> log == old(log) + [completed.value]
    {
      StepInvariant(State(), angleThreshold, depthThreshold, leftKneeAngle, rightKneeAngle, squatDepth);
      completed := None;
      if leftKneeAngle.None? || rightKneeAngle.None? || squatDepth.None? {
        return;
      }
      var avgKneeAngle := (leftKneeAngle.value + rightKneeAngle.value) / 2.0;
      var depth := squatDepth.value;
      var isStanding := IsStandingPosition(avgKneeAngle, depth);
      var isFullSquat := avgKneeAngle < angleThreshold && depth < depthThreshold;
      if isStanding && inSquatPosition {
        returnedToStanding := true;
        inSquatPosition := false;
        squatCount := squatCount + 1;
        var a := minAngleAchieved.value;
        var d := minDepthAchieved.value;
        var record := SquatRecord(squatCount, a, d, SquatQuality(a, d));
        log := log + [record];
        completed := Some(record);
      }
      if isFullSquat && !inSquatPosition && returnedToStanding {
        inSquatPosition := true;
        returnedToStanding := false;
        minAngleAchieved := Some(avgKneeAngle);
        minDepthAchieved := Some(depth);
      } else if inSquatPosition {
        if avgKneeAngle < minAngleAchieved.value {
          minAngleAchieved := Some(avgKneeAngle);
        }
        if depth < minDepthAchieved.value {
          minDepthAchieved := Some(depth);
        }
      }
    }
  }
}
