/**
 * The standalone shoulder-press detector of shoulder_press.py. Unlike the
 * engine of the exercise package it counts a press on ENTRY to the
 * overhead position and grades it from that single frame; the later
 * extension and height tracking never reaches the log.
 */
module LegacyShoulderPress {
  import opened Wrappers
  import opened Utils

  datatype PressRecord = PressRecord(number: nat, extension: real, height: real, quality: string)

  datatype PressState = PressState(
    pressCount: nat,
    inPressPosition: bool,
    armsReturned: bool,
    maxExtensionAchieved: Option<real>,
    maxHeightAchieved: Option<real>,
    log: seq<PressRecord>)

  function Init(): PressState {
    PressState(0, false, true, None, None, [])
  }

  /**
   * `calculate_wrist_height`: the mean of the two wrist-minus-shoulder
   * vertical offsets, negative when the wrists are above the shoulders.
   */
  function WristHeight(leftShoulder: Option<Point>, leftWrist: Option<Point>,
                       rightShoulder: Option<Point>, rightWrist: Option<Point>): (h: Option<real>)
    ensures h.Some? <==> leftShoulder.Some? && leftWrist.Some? && rightShoulder.Some? && rightWrist.Some?
    ensures h.Some? && leftWrist.value.y < leftShoulder.value.y && rightWrist.value.y < rightShoulder.value.y ==> h.value < 0.0
    ensures h.Some? ==> Some(h.value) == BilateralAverage(Some(VerticalDistance(leftWrist.value, leftShoulder.value)),
                                                           Some(VerticalDistance(rightWrist.value, rightShoulder.value)))
  {
    if leftShoulder.None? || leftWrist.None? || rightShoulder.None? || rightWrist.None? then None
    else Some(((leftWrist.value.y - leftShoulder.value.y) + (rightWrist.value.y - rightShoulder.value.y)) / 2.0)
  }

  predicate IsArmsOverhead(wristHeight: real, wristHeightThreshold: real) {
    wristHeight < -wristHeightThreshold
  }

  /** Elbows bent below 140 degrees and wrists no higher than 0.15 above the shoulders. */
  predicate IsArmsAtStartingPosition(avgElbowAngle: real, wristHeight: real) {
    avgElbowAngle < 140.0 && wristHeight > -0.15
  }

  predicate IsFullPress(avgElbowAngle: real, wristHeight: real, elbowAngleThreshold: real, wristHeightThreshold: real) {
    avgElbowAngle > elbowAngleThreshold && IsArmsOverhead(wristHeight, wristHeightThreshold)
  }

  /** With an elbow threshold of at least 140, or a height threshold of at least 0.15, no frame is both. */
  lemma StartExcludesFullPress(avgElbowAngle: real, wristHeight: real, elbowAngleThreshold: real, wristHeightThreshold: real)
    requires elbowAngleThreshold >= 140.0 || wristHeightThreshold >= 0.15
    ensures !(IsArmsAtStartingPosition(avgElbowAngle, wristHeight) && IsFullPress(avgElbowAngle, wristHeight, elbowAngleThreshold, wristHeightThreshold))
  {
  }

  const Excellent := "Excellent - Full lockout"
  const Good := "Good - Nearly full"
  const Fair := "Fair - Partial lockout"
  const Incomplete := "Incomplete"

  function Rank(q: string): nat {
    if q == Excellent then 3 else if q == Good then 2 else if q == Fair then 1 else 0
  }

  /** The quality label of `_log_press`, from the extension and the magnitude of the height. */
  function PressQuality(maxExtension: real, maxHeight: real): (q: string)
    ensures q in {Excellent, Good, Fair, Incomplete}
    ensures q == Excellent <==> maxExtension > 170.0 && Abs(maxHeight) > 0.35
    ensures q == Incomplete <==> !(maxExtension > 160.0 && Abs(maxHeight) > 0.25)
  {
    if maxExtension > 170.0 && Abs(maxHeight) > 0.35 then Excellent
    else if maxExtension > 165.0 && Abs(maxHeight) > 0.30 then Good
    else if maxExtension > 160.0 && Abs(maxHeight) > 0.25 then Fair
    else Incomplete
  }

  /** More extension and a larger height magnitude never lower the grade. */
  lemma QualityMonotone(e1: real, h1: real, e2: real, h2: real)
    requires e1 <= e2 && Abs(h1) <= Abs(h2)
    ensures Rank(PressQuality(e1, h1)) <= Rank(PressQuality(e2, h2))
  {
  }

  predicate WellFormed(s: PressState) {
    s.inPressPosition ==> s.maxExtensionAchieved.Some? && s.maxHeightAchieved.Some?
  }

  /** One call of `on_joints_detected`, given both elbow angles and the wrist height. */
  function Step(s: PressState, elbowAngleThreshold: real, wristHeightThreshold: real,
                leftElbowAngle: Option<real>, rightElbowAngle: Option<real>, wristHeight: Option<real>): (t: PressState)
    requires WellFormed(s)
    ensures WellFormed(t)
  {
    if leftElbowAngle.None? || rightElbowAngle.None? || wristHeight.None? then s
    else
      var avg := (leftElbowAngle.value + rightElbowAngle.value) / 2.0;
      var h := wristHeight.value;
      var full := IsFullPress(avg, h, elbowAngleThreshold, wristHeightThreshold);
      var s1 :=
        if IsArmsAtStartingPosition(avg, h) && s.inPressPosition then
          s.(armsReturned := true, inPressPosition := false)
        else s;
      if full && !s1.inPressPosition && s1.armsReturned then
        s1.(inPressPosition := true, armsReturned := false, pressCount := s1.pressCount + 1,
            maxExtensionAchieved := Some(avg), maxHeightAchieved := Some(h),
            log := s1.log + [PressRecord(s1.pressCount + 1, avg, h, PressQuality(avg, h))])
      else if s1.inPressPosition && full then
        s1.(maxExtensionAchieved := Some(if avg > s1.maxExtensionAchieved.value then avg else s1.maxExtensionAchieved.value),
            maxHeightAchieved := Some(if h < s1.maxHeightAchieved.value then h else s1.maxHeightAchieved.value))
      else s1
  }

  lemma MissingInputNoChange(s: PressState, elbowAngleThreshold: real, wristHeightThreshold: real,
                             leftElbowAngle: Option<real>, rightElbowAngle: Option<real>, wristHeight: Option<real>)
    requires WellFormed(s)
    requires leftElbowAngle.None? || rightElbowAngle.None? || wristHeight.None?
    ensures Step(s, elbowAngleThreshold, wristHeightThreshold, leftElbowAngle, rightElbowAngle, wristHeight) == s
  {
  }

  /**
   * A press is counted exactly when a full-press frame arrives while the arms
   * are out of the press position, or on a frame that is both a return to the
   * start and a full press (the return is applied first); a return that is
   * not a full press only resets the flags. When the thresholds keep the two
   * positions apart, only the first case remains.
   */
  lemma StepCounting(s: PressState, elbowAngleThreshold: real, wristHeightThreshold: real, left: real, right: real, h: real)
    requires WellFormed(s) && s.armsReturned == !s.inPressPosition
    ensures var t := Step(s, elbowAngleThreshold, wristHeightThreshold, Some(left), Some(right), Some(h));
      var avg := (left + right) / 2.0;
      var full := IsFullPress(avg, h, elbowAngleThreshold, wristHeightThreshold);
      && (t.pressCount == s.pressCount || t.pressCount == s.pressCount + 1)
      && (t.pressCount == s.pressCount + 1 <==> full && (!s.inPressPosition || IsArmsAtStartingPosition(avg, h)))
      && (t.pressCount == s.pressCount + 1 ==> t.inPressPosition && t.maxExtensionAchieved == Some(avg) && t.maxHeightAchieved == Some(h))
      && (s.inPressPosition && IsArmsAtStartingPosition(avg, h) && !full ==> t.pressCount == s.pressCount && !t.inPressPosition && t.armsReturned)
      && (elbowAngleThreshold >= 140.0 || wristHeightThreshold >= 0.15 ==>
            (t.pressCount == s.pressCount + 1 <==> full && !s.inPressPosition))
  {
    if elbowAngleThreshold >= 140.0 || wristHeightThreshold >= 0.15 {
      StartExcludesFullPress((left + right) / 2.0, h, elbowAngleThreshold, wristHeightThreshold);
    }
  }

  /** With thresholds of 130 degrees and 0.1, a frame at 135 degrees and 0.12 above the shoulders both returns and counts a new press. */
  lemma OverlappingThresholdsReturnAndCount()
    ensures var s := Init().(pressCount := 1, inPressPosition := true, armsReturned := false,
                             maxExtensionAchieved := Some(170.0), maxHeightAchieved := Some(-0.4),
                             log := [PressRecord(1, 170.0, -0.4, Excellent)]);
      var t := Step(s, 130.0, 0.1, Some(135.0), Some(135.0), Some(-0.12));
      t.pressCount == 2 && t.inPressPosition && t.log == s.log + [PressRecord(2, 135.0, -0.12, Incomplete)]
  {
  }

  /** While the press is held, the best extension never drops and the best height never lowers. */
  lemma MaximaMonotone(s: PressState, elbowAngleThreshold: real, wristHeightThreshold: real, left: real, right: real, h: real)
    requires WellFormed(s)
    requires s.inPressPosition
    ensures var t := Step(s, elbowAngleThreshold, wristHeightThreshold, Some(left), Some(right), Some(h));
      t.inPressPosition && t.pressCount == s.pressCount ==>
        t.maxExtensionAchieved.value >= s.maxExtensionAchieved.value && t.maxHeightAchieved.value <= s.maxHeightAchieved.value
  {
  }

  /**
   * The reachable-state invariant: complementary flags, and one record per
   * press, graded from a frame that met both full-press thresholds.
   */
  predicate Invariant(s: PressState, elbowAngleThreshold: real, wristHeightThreshold: real) {
    && WellFormed(s)
    && s.armsReturned == !s.inPressPosition
    && |s.log| == s.pressCount
    && (forall i :: 0 <= i < |s.log| ==>
          s.log[i].number == i + 1
          && IsFullPress(s.log[i].extension, s.log[i].height, elbowAngleThreshold, wristHeightThreshold)
          && s.log[i].quality == PressQuality(s.log[i].extension, s.log[i].height))
  }

  lemma StepInvariant(s: PressState, elbowAngleThreshold: real, wristHeightThreshold: real,
                      left: Option<real>, right: Option<real>, h: Option<real>)
    requires Invariant(s, elbowAngleThreshold, wristHeightThreshold)
    ensures Invariant(Step(s, elbowAngleThreshold, wristHeightThreshold, left, right, h), elbowAngleThreshold, wristHeightThreshold)
  {
  }

  datatype PressFrame = PressFrame(leftElbowAngle: Option<real>, rightElbowAngle: Option<real>, wristHeight: Option<real>)

  function Run(s: PressState, elbowAngleThreshold: real, wristHeightThreshold: real, fs: seq<PressFrame>): (t: PressState)
    requires WellFormed(s)
    ensures WellFormed(t)
    decreases |fs|
  {
    if fs == [] then s
    else Run(Step(s, elbowAngleThreshold, wristHeightThreshold, fs[0].leftElbowAngle, fs[0].rightElbowAngle, fs[0].wristHeight),
             elbowAngleThreshold, wristHeightThreshold, fs[1..])
  }

  lemma {:induction false} RunInvariant(s: PressState, elbowAngleThreshold: real, wristHeightThreshold: real, fs: seq<PressFrame>)
    requires Invariant(s, elbowAngleThreshold, wristHeightThreshold)
    ensures Invariant(Run(s, elbowAngleThreshold, wristHeightThreshold, fs), elbowAngleThreshold, wristHeightThreshold)
    decreases |fs|
  {
    if fs != [] {
      StepInvariant(s, elbowAngleThreshold, wristHeightThreshold, fs[0].leftElbowAngle, fs[0].rightElbowAngle, fs[0].wristHeight);
      RunInvariant(Step(s, elbowAngleThreshold, wristHeightThreshold, fs[0].leftElbowAngle, fs[0].rightElbowAngle, fs[0].wristHeight),
                   elbowAngleThreshold, wristHeightThreshold, fs[1..]);
    }
  }

  /** With the default thresholds (160 degrees, 0.3) a logged press is never graded "Incomplete". */
  lemma LoggedPressesAtLeastFair(fs: seq<PressFrame>, i: int)
    requires 0 <= i < |Run(Init(), 160.0, 0.3, fs).log|
    ensures Run(Init(), 160.0, 0.3, fs).log[i].quality != Incomplete
  {
    RunInvariant(Init(), 160.0, 0.3, fs);
  }

  class LegacyShoulderPressDetector {
    const elbowAngleThreshold: real
    const wristHeightThreshold: real
    /** Handed to the parent angle handler; the press logic never consults it. */
    const cooldownFrames: int
    var pressCount: nat
    var inPressPosition: bool
    var armsReturned: bool
    var maxExtensionAchieved: Option<real>
    var maxHeightAchieved: Option<real>
    var log: seq<PressRecord>

    function State(): PressState
      reads this
    {
      PressState(pressCount, inPressPosition, armsReturned, maxExtensionAchieved, maxHeightAchieved, log)
    }

    predicate Valid()
      reads this
    {
      Invariant(State(), elbowAngleThreshold, wristHeightThreshold)
    }

    constructor (elbowAngleThreshold: real := 160.0, wristHeightThreshold: real := 0.3)
      ensures this.elbowAngleThreshold == elbowAngleThreshold && this.wristHeightThreshold == wristHeightThreshold
      ensures cooldownFrames == 15 && Valid() && State() == Init()
    {
      this.elbowAngleThreshold := elbowAngleThreshold;
      this.wristHeightThreshold := wristHeightThreshold;
      cooldownFrames := 15;
      pressCount := 0;
      inPressPosition := false;
      armsReturned := true;
      maxExtensionAchieved := None;
      maxHeightAchieved := None;
      log := [];
    }

    /** `on_joints_detected`; returns the logged record when this frame counted a press. */
    method OnJointsDetected(leftElbowAngle: Option<real>, rightElbowAngle: Option<real>, wristHeight: Option<real>)
      returns (counted: Option<PressRecord>)
      requires Valid()
      modifies this
      ensures Valid()
      ensures State() == Step(old(State()), elbowAngleThreshold, wristHeightThreshold, leftElbowAngle, rightElbowAngle, wristHeight)
      ensures counted.Some? <==> pressCount == old(pressCount) + 1
      ensures counted.Some? ==> log == old(log) + [counted.value]
    {
      StepInvariant(State(), elbowAngleThreshold, wristHeightThreshold, leftElbowAngle, rightElbowAngle, wristHeight);
      counted := None;
      if leftElbowAngle.None? || rightElbowAngle.None? || wristHeight.None? {
        return;
      }
      var avgElbowAngle := (leftElbowAngle.value + rightElbowAngle.value) / 2.0;
      var h := wristHeight.value;
      var armsOverhead := IsArmsOverhead(h, wristHeightThreshold);
      var armsExtended := avgElbowAngle > elbowAngleThreshold;
      var atStartingPosition := IsArmsAtStartingPosition(avgElbowAngle, h);
      var isFullPress := armsExtended && armsOverhead;
      if atStartingPosition && inPressPosition {
        armsReturned := true;
        inPressPosition := false;
      }
      if isFullPress && !inPressPosition && armsReturned {
        inPressPosition := true;
        armsReturned := false;
        pressCount := pressCount + 1;
        maxExtensionAchieved := Some(avgElbowAngle);
        maxHeightAchieved := Some(h);
        var record := PressRecord(pressCount, avgElbowAngle, h, PressQuality(avgElbowAngle, h));
        log := log + [record];
        counted := Some(record);
      } else if inPressPosition && isFullPress {
        if avgElbowAngle > maxExtensionAchieved.value {
          maxExtensionAchieved := Some(avgElbowAngle);
        }
        if h < maxHeightAchieved.value {
          maxHeightAchieved := Some(h);
        }
      }
    }
  }
}
