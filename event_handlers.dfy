/**
 * The three debounced joint-event detectors of api/core/event_handlers.py:
 * sign crossing of a relative coordinate, proximity rising edge, and
 * angle-threshold rising edge. Each detector's step is a pure function on a
 * small state value; each handler class keeps that state in fields and its
 * `OnJointsDetected` applies the step. Euclidean distances and joint angles
 * are inputs (None when a required joint is undetected).
 */
module EventHandlers {
  import opened Wrappers
  import opened Utils

  // ---------------------------------------------------------------- crossing

  datatype Axis = X | Y | Z

  /** The constructor's axis check: anything but "x", "y" or "z" raises ValueError. */
  function ParseAxis(axis: string): (r: Result<Axis, string>)
    ensures r.Ok? <==> axis == "x" || axis == "y" || axis == "z"
    ensures axis == "x" ==> r == Ok(X)
    ensures axis == "y" ==> r == Ok(Y)
    ensures axis == "z" ==> r == Ok(Z)
  {
    if axis == "x" then Ok(X)
    else if axis == "y" then Ok(Y)
    else if axis == "z" then Ok(Z)
    else Err("Invalid axis: " + axis + ". Must be 'x', 'y', or 'z'")
  }

  function Coord(p: Point, axis: Axis): real {
    match axis
    case X => p.x
    case Y => p.y
    case Z => p.z
  }

  /** `np.sign` on a real. */
  function Sign(v: real): (r: int)
    ensures r == -1 || r == 0 || r == 1
    ensures (r == 1 <==> v > 0.0) && (r == 0 <==> v == 0.0)
  {
    if v > 0.0 then 1 else if v < 0.0 then -1 else 0
  }

  /** joint1's coordinate minus joint2's on the chosen axis, or None when either joint is undetected. */
  function RelativePosition(joint1: Option<Point>, joint2: Option<Point>, axis: Axis): (r: Option<real>)
    ensures r.Some? <==> joint1.Some? && joint2.Some?
  {
    if joint1.None? || joint2.None? then None
    else Some(Coord(joint1.value, axis) - Coord(joint2.value, axis))
  }

  /** Which joint crossed over the other. */
  datatype Direction = Joint1Over | Joint2Over

  function DirectionText(d: Direction, joint1Name: string, joint2Name: string): string {
    match d
    case Joint1Over => joint1Name + " crossed over " + joint2Name
    case Joint2Over => joint2Name + " crossed over " + joint1Name
  }

  datatype CrossingState = CrossingState(lastRelativePosition: Option<real>, framesSinceLastEvent: int)

  /** State after construction: no previous position, and the counter already at the cooldown. */
  function CrossingInit(cooldownFrames: int): CrossingState {
    CrossingState(None, cooldownFrames)
  }

  /** One call of `JointCrossingHandler.on_joints_detected`, given the relative position of the frame. */
  function CrossingStep(s: CrossingState, cooldownFrames: int, rel: Option<real>): (CrossingState, Option<Direction>) {
    var n := s.framesSinceLastEvent + 1;
    match rel
    case None => (s.(framesSinceLastEvent := n), None)
    case Some(cur) =>
      if s.lastRelativePosition.Some? && Sign(s.lastRelativePosition.value) != Sign(cur) && n >= cooldownFrames then
        (CrossingState(Some(cur), 0), Some(if cur > 0.0 then Joint1Over else Joint2Over))
      else
        (CrossingState(Some(cur), n), None)
  }

  /** A crossing fires exactly when there is a previous position, the sign changed and the cooldown has elapsed. */
  lemma CrossingFiresIff(s: CrossingState, cooldownFrames: int, rel: Option<real>)
    ensures var (t, ev) := CrossingStep(s, cooldownFrames, rel);
      && (ev.Some? <==> rel.Some? && s.lastRelativePosition.Some?
                        && Sign(s.lastRelativePosition.value) != Sign(rel.value)
                        && s.framesSinceLastEvent + 1 >= cooldownFrames)
      && (ev.Some? ==> t.framesSinceLastEvent == 0 && (ev.value == Joint1Over <==> rel.value > 0.0))
      && (ev.None? ==> t.framesSinceLastEvent == s.framesSinceLastEvent + 1)
  {
  }

  /** A frame with a missing joint keeps the last position; a frame with both overwrites it, fired or not. */
  lemma CrossingLastPosition(s: CrossingState, cooldownFrames: int, rel: Option<real>)
    ensures var (t, ev) := CrossingStep(s, cooldownFrames, rel);
      && (rel.None? ==> ev.None? && t == s.(framesSinceLastEvent := s.framesSinceLastEvent + 1))
      && (rel.Some? ==> t.lastRelativePosition == rel)
  {
  }

  /** The first frame with both joints present never fires. */
  lemma CrossingFirstFrameSilent(s: CrossingState, cooldownFrames: int, cur: real)
    requires s.lastRelativePosition.None?
    ensures CrossingStep(s, cooldownFrames, Some(cur)).1.None?
  {
  }

  /** Final state and number of firings after a sequence of frames. */
  function CrossingRun(s: CrossingState, cooldownFrames: int, rels: seq<Option<real>>): (CrossingState, nat)
    decreases |rels|
  {
    if rels == [] then (s, 0)
    else
      var (t, ev) := CrossingStep(s, cooldownFrames, rels[0]);
      var (u, k) := CrossingRun(t, cooldownFrames, rels[1..]);
      (u, k + (if ev.Some? then 1 else 0))
  }

  /** Without a firing, the counter advances by exactly one per frame. */
  lemma {:induction false} CrossingQuietRun(s: CrossingState, cooldownFrames: int, rels: seq<Option<real>>)
    requires CrossingRun(s, cooldownFrames, rels).1 == 0
    ensures CrossingRun(s, cooldownFrames, rels).0.framesSinceLastEvent == s.framesSinceLastEvent + |rels|
    decreases |rels|
  {
    if rels != [] {
      CrossingQuietRun(CrossingStep(s, cooldownFrames, rels[0]).0, cooldownFrames, rels[1..]);
    }
  }

  /** Two consecutive crossings are at least `cooldownFrames` calls apart. */
  lemma CrossingSpacing(s: CrossingState, cooldownFrames: int, first: Option<real>, between: seq<Option<real>>, second: Option<real>)
    requires CrossingStep(s, cooldownFrames, first).1.Some?
    requires CrossingRun(CrossingStep(s, cooldownFrames, first).0, cooldownFrames, between).1 == 0
    requires CrossingStep(CrossingRun(CrossingStep(s, cooldownFrames, first).0, cooldownFrames, between).0, cooldownFrames, second).1.Some?
    ensures |between| + 1 >= cooldownFrames
  {
    CrossingQuietRun(CrossingStep(s, cooldownFrames, first).0, cooldownFrames, between);
  }

  /** Signals +1, +1, -1, -1, +1 with the cooldown satisfied fire exactly twice: at the two sign flips. */
  lemma CrossingTwoFlipsScenario()
    ensures CrossingRun(CrossingInit(1), 1, [Some(1.0), Some(1.0), Some(-1.0), Some(-1.0), Some(1.0)]).1 == 2
  {
    var s0 := CrossingInit(1);
    var s1 := CrossingStep(s0, 1, Some(1.0));
    assert s1 == (CrossingState(Some(1.0), 2), None);
    var s2 := CrossingStep(s1.0, 1, Some(1.0));
    assert s2 == (CrossingState(Some(1.0), 3), None);
    var s3 := CrossingStep(s2.0, 1, Some(-1.0));
    assert s3 == (CrossingState(Some(-1.0), 0), Some(Joint2Over));
    var s4 := CrossingStep(s3.0, 1, Some(-1.0));
    assert s4 == (CrossingState(Some(-1.0), 1), None);
    var s5 := CrossingStep(s4.0, 1, Some(1.0));
    assert s5 == (CrossingState(Some(1.0), 0), Some(Joint1Over));
    assert CrossingRun(s4.0, 1, [Some(1.0)]).1 == 1;
    assert CrossingRun(s3.0, 1, [Some(-1.0), Some(1.0)]).1 == 1;
    assert CrossingRun(s2.0, 1, [Some(-1.0), Some(-1.0), Some(1.0)]).1 == 2;
    assert CrossingRun(s1.0, 1, [Some(1.0), Some(-1.0), Some(-1.0), Some(1.0)]).1 == 2;
  }

  class JointCrossingHandler {
    const joint1Name: string
    const joint2Name: string
    const axis: Axis
    const cooldownFrames: int
    var lastRelativePosition: Option<real>
    var framesSinceLastEvent: int

    function State(): CrossingState
      reads this
    {
      CrossingState(lastRelativePosition, framesSinceLastEvent)
    }

    constructor (joint1Name: string, joint2Name: string, axis: Axis, cooldownFrames: int)
      ensures this.joint1Name == joint1Name && this.joint2Name == joint2Name
      ensures this.axis == axis && this.cooldownFrames == cooldownFrames
      ensures State() == CrossingInit(cooldownFrames)
    {
      this.joint1Name := joint1Name;
      this.joint2Name := joint2Name;
      this.axis := axis;
      this.cooldownFrames := cooldownFrames;
      lastRelativePosition := None;
      framesSinceLastEvent := cooldownFrames;
    }

    /** `JointCrossingHandler(...)`: the axis name is validated first; an invalid one is the ValueError. */
    static method New(joint1Name: string, joint2Name: string, axis: string := "x", cooldownFrames: int := 30)
      returns (r: Result<JointCrossingHandler, string>)
      ensures r.Err? <==> ParseAxis(axis).Err?
      ensures r.Ok? ==> fresh(r.value) && r.value.axis == ParseAxis(axis).value
      ensures r.Ok? ==> r.value.cooldownFrames == cooldownFrames && r.value.State() == CrossingInit(cooldownFrames)
    {
      match ParseAxis(axis)
      case Err(e) => r := Err(e);
      case Ok(a) =>
        var h := new JointCrossingHandler(joint1Name, joint2Name, a, cooldownFrames);
        r := Ok(h);
    }

    /** `on_joints_detected`; the returned text is the `direction` passed to `on_joints_crossed`. */
    method OnJointsDetected(joint1: Option<Point>, joint2: Option<Point>) returns (event: Option<string>)
      modifies this
      ensures var (t, ev) := CrossingStep(old(State()), cooldownFrames, RelativePosition(joint1, joint2, axis));
        State() == t && event == (if ev.Some? then Some(DirectionText(ev.value, joint1Name, joint2Name)) else None)
    {
      framesSinceLastEvent := framesSinceLastEvent + 1;
      if joint1.None? || joint2.None? {
        return None;
      }
      var current := Coord(joint1.value, axis) - Coord(joint2.value, axis);
      event := None;
      if lastRelativePosition.Some? {
        if Sign(lastRelativePosition.value) != Sign(current) && framesSinceLastEvent >= cooldownFrames {
          var direction := if current > 0.0 then DirectionText(Joint1Over, joint1Name, joint2Name)
                           else DirectionText(Joint2Over, joint1Name, joint2Name);
          event := Some(direction);
          framesSinceLastEvent := 0;
        }
      }
      lastRelativePosition := Some(current);
    }
  }

  // --------------------------------------------------------------- proximity

  datatype ProximityState = ProximityState(wasClose: bool, framesSinceLastEvent: int)

  function ProximityInit(cooldownFrames: int): ProximityState {
    ProximityState(false, cooldownFrames)
  }

  /** One call of `JointProximityHandler.on_joints_detected`, given the joint distance of the frame. */
  function ProximityStep(s: ProximityState, cooldownFrames: int, thresholdDistance: real, distance: Option<real>): (ProximityState, bool) {
    var n := s.framesSinceLastEvent + 1;
    match distance
    case None => (s.(framesSinceLastEvent := n), false)
    case Some(d) =>
      var isClose := d < thresholdDistance;
      if isClose && !s.wasClose && n >= cooldownFrames then (ProximityState(isClose, 0), true)
      else (ProximityState(isClose, n), false)
  }

  /** Firing is the debounced rising edge of "closer than the threshold"; `wasClose` follows every valid frame. */
  lemma ProximityFiresIff(s: ProximityState, cooldownFrames: int, thresholdDistance: real, distance: Option<real>)
    ensures var (t, fired) := ProximityStep(s, cooldownFrames, thresholdDistance, distance);
      && (fired <==> distance.Some? && distance.value < thresholdDistance && !s.wasClose
                     && s.framesSinceLastEvent + 1 >= cooldownFrames)
      && (distance.Some? ==> t.wasClose == (distance.value < thresholdDistance))
      && (distance.None? ==> t.wasClose == s.wasClose)
      && t.framesSinceLastEvent == if fired then 0 else s.framesSinceLastEvent + 1
  {
  }

  function ProximityRun(s: ProximityState, cooldownFrames: int, thresholdDistance: real, ds: seq<Option<real>>): (ProximityState, nat)
    decreases |ds|
  {
    if ds == [] then (s, 0)
    else
      var (t, fired) := ProximityStep(s, cooldownFrames, thresholdDistance, ds[0]);
      var (u, k) := ProximityRun(t, cooldownFrames, thresholdDistance, ds[1..]);
      (u, k + (if fired then 1 else 0))
  }

  /** A run of frames that are all close fires nothing once the edge flag is set, and ends with the flag set. */
  lemma {:induction false} ProximityStaysClose(s: ProximityState, cooldownFrames: int, thresholdDistance: real, ds: seq<Option<real>>)
    requires s.wasClose
    requires forall i :: 0 <= i < |ds| ==> ds[i].Some? && ds[i].value < thresholdDistance
    ensures ProximityRun(s, cooldownFrames, thresholdDistance, ds).1 == 0
    ensures ProximityRun(s, cooldownFrames, thresholdDistance, ds).0.wasClose
    decreases |ds|
  {
    if ds != [] {
      ProximityStaysClose(ProximityStep(s, cooldownFrames, thresholdDistance, ds[0]).0, cooldownFrames, thresholdDistance, ds[1..]);
    }
  }

  /** A run of close frames, from any state, fires at most once. */
  lemma ProximityCloseRunFiresAtMostOnce(s: ProximityState, cooldownFrames: int, thresholdDistance: real, ds: seq<Option<real>>)
    requires forall i :: 0 <= i < |ds| ==> ds[i].Some? && ds[i].value < thresholdDistance
    ensures ProximityRun(s, cooldownFrames, thresholdDistance, ds).1 <= 1
  {
    if ds != [] {
      var t := ProximityStep(s, cooldownFrames, thresholdDistance, ds[0]).0;
      ProximityStaysClose(t, cooldownFrames, thresholdDistance, ds[1..]);
    }
  }

  /** Distances 0.3, 0.05, 0.04, 0.3 against threshold 0.1 fire once, at the 0.3 to 0.05 edge. */
  lemma ProximityRisingEdgeScenario(cooldownFrames: int)
    requires cooldownFrames <= 30
    ensures ProximityRun(ProximityInit(cooldownFrames), cooldownFrames, 0.1, [Some(0.3), Some(0.05), Some(0.04), Some(0.3)]).1 == 1
  {
    var c := cooldownFrames;
    var s1 := ProximityStep(ProximityInit(c), c, 0.1, Some(0.3));
    assert s1 == (ProximityState(false, c + 1), false);
    var s2 := ProximityStep(s1.0, c, 0.1, Some(0.05));
    assert s2 == (ProximityState(true, 0), true);
    var s3 := ProximityStep(s2.0, c, 0.1, Some(0.04));
    assert !s3.1;
    var s4 := ProximityStep(s3.0, c, 0.1, Some(0.3));
    assert !s4.1;
    assert ProximityRun(s3.0, c, 0.1, [Some(0.3)]).1 == 0;
    assert ProximityRun(s2.0, c, 0.1, [Some(0.04), Some(0.3)]).1 == 0;
    assert ProximityRun(s1.0, c, 0.1, [Some(0.05), Some(0.04), Some(0.3)]).1 == 1;
  }

  class JointProximityHandler {
    const joint1Name: string
    const joint2Name: string
    const thresholdDistance: real
    const cooldownFrames: int
    var framesSinceLastEvent: int
    var wasClose: bool

    function State(): ProximityState
      reads this
    {
      ProximityState(wasClose, framesSinceLastEvent)
    }

    constructor (joint1Name: string, joint2Name: string, thresholdDistance: real := 0.1, cooldownFrames: int := 30)
      ensures this.thresholdDistance == thresholdDistance && this.cooldownFrames == cooldownFrames
      ensures State() == ProximityInit(cooldownFrames)
    {
      this.joint1Name := joint1Name;
      this.joint2Name := joint2Name;
      this.thresholdDistance := thresholdDistance;
      this.cooldownFrames := cooldownFrames;
      framesSinceLastEvent := cooldownFrames;
      wasClose := false;
    }

    /** `on_joints_detected`; `distance` is None when either joint is undetected. Returns whether `on_joints_close` fired. */
    method OnJointsDetected(distance: Option<real>) returns (fired: bool)
      modifies this
      ensures (State(), fired) == ProximityStep(old(State()), cooldownFrames, thresholdDistance, distance)
    {
      framesSinceLastEvent := framesSinceLastEvent + 1;
      fired := false;
      if distance.None? {
        return;
      }
      var isClose := distance.value < thresholdDistance;
      if isClose && !wasClose && framesSinceLastEvent >= cooldownFrames {
        fired := true;
        framesSinceLastEvent := 0;
      }
      wasClose := isClose;
    }
  }

  // ------------------------------------------------------------------- angle

  /** `(comparison == 'less' and angle < thr) or (comparison == 'greater' and angle > thr)`. */
  predicate ThresholdCurrentlyCrossed(comparison: string, angle: real, angleThreshold: real) {
    (comparison == "less" && angle < angleThreshold) || (comparison == "greater" && angle > angleThreshold)
  }

  lemma ThresholdComparisonModes(comparison: string, angle: real, angleThreshold: real)
    ensures comparison == "less" ==> (ThresholdCurrentlyCrossed(comparison, angle, angleThreshold) <==> angle < angleThreshold)
    ensures comparison == "greater" ==> (ThresholdCurrentlyCrossed(comparison, angle, angleThreshold) <==> angle > angleThreshold)
    ensures comparison != "less" && comparison != "greater" ==> !ThresholdCurrentlyCrossed(comparison, angle, angleThreshold)
  {
  }

  datatype AngleState = AngleState(thresholdCrossed: bool, framesSinceLastEvent: int)

  function AngleInit(cooldownFrames: int): AngleState {
    AngleState(false, cooldownFrames)
  }

  /** One call of `JointAngleHandler.on_joints_detected`, given the vertex angle of the frame. */
  function AngleStep(s: AngleState, cooldownFrames: int, comparison: string, angleThreshold: real, angle: Option<real>): (AngleState, bool) {
    var n := s.framesSinceLastEvent + 1;
    match angle
    case None => (s.(framesSinceLastEvent := n), false)
    case Some(a) =>
      var crossed := ThresholdCurrentlyCrossed(comparison, a, angleThreshold);
      if crossed && !s.thresholdCrossed && n >= cooldownFrames then (AngleState(crossed, 0), true)
      else (AngleState(crossed, n), false)
  }

  lemma AngleFiresIff(s: AngleState, cooldownFrames: int, comparison: string, angleThreshold: real, angle: Option<real>)
    ensures var (t, fired) := AngleStep(s, cooldownFrames, comparison, angleThreshold, angle);
      && (fired <==> angle.Some? && ThresholdCurrentlyCrossed(comparison, angle.value, angleThreshold)
                     && !s.thresholdCrossed && s.framesSinceLastEvent + 1 >= cooldownFrames)
      && (angle.Some? ==> t.thresholdCrossed == ThresholdCurrentlyCrossed(comparison, angle.value, angleThreshold))
      && (angle.None? ==> t.thresholdCrossed == s.thresholdCrossed)
      && t.framesSinceLastEvent == if fired then 0 else s.framesSinceLastEvent + 1
  {
  }

  function AngleRun(s: AngleState, cooldownFrames: int, comparison: string, angleThreshold: real, angles: seq<Option<real>>): (AngleState, nat)
    decreases |angles|
  {
    if angles == [] then (s, 0)
    else
      var (t, fired) := AngleStep(s, cooldownFrames, comparison, angleThreshold, angles[0]);
      var (u, k) := AngleRun(t, cooldownFrames, comparison, angleThreshold, angles[1..]);
      (u, k + (if fired then 1 else 0))
  }

  /**
   * A rising edge swallowed by the cooldown is lost: the edge flag is set
   * anyway, so while the condition stays true no later frame fires.
   */
  lemma {:induction false} AngleEdgeLostInCooldown(s: AngleState, cooldownFrames: int, comparison: string, angleThreshold: real,
                                                    edge: real, rest: seq<Option<real>>)
    requires !s.thresholdCrossed && s.framesSinceLastEvent + 1 < cooldownFrames
    requires ThresholdCurrentlyCrossed(comparison, edge, angleThreshold)
    requires forall i :: 0 <= i < |rest| ==> rest[i].Some? && ThresholdCurrentlyCrossed(comparison, rest[i].value, angleThreshold)
    ensures AngleRun(s, cooldownFrames, comparison, angleThreshold, [Some(edge)] + rest).1 == 0
  {
    var t := AngleStep(s, cooldownFrames, comparison, angleThreshold, Some(edge));
    assert !t.1 && t.0.thresholdCrossed;
    AngleStaysCrossed(t.0, cooldownFrames, comparison, angleThreshold, rest);
    assert ([Some(edge)] + rest)[1..] == rest;
  }

  lemma {:induction false} AngleStaysCrossed(s: AngleState, cooldownFrames: int, comparison: string, angleThreshold: real, angles: seq<Option<real>>)
    requires s.thresholdCrossed
    requires forall i :: 0 <= i < |angles| ==> angles[i].Some? && ThresholdCurrentlyCrossed(comparison, angles[i].value, angleThreshold)
    ensures AngleRun(s, cooldownFrames, comparison, angleThreshold, angles).1 == 0
    decreases |angles|
  {
    if angles != [] {
      AngleStaysCrossed(AngleStep(s, cooldownFrames, comparison, angleThreshold, angles[0]).0, cooldownFrames, comparison, angleThreshold, angles[1..]);
    }
  }

  /**
   * All three counters start at the cooldown, so a freshly built detector is
   * never suppressed by it: its first eligible event fires.
   */
  lemma FreshDetectorsNotSuppressed(cooldownFrames: int, cur: real, prev: real, thresholdDistance: real, d: real,
                                     comparison: string, angleThreshold: real, angle: real)
    requires Sign(prev) != Sign(cur)
    requires d < thresholdDistance
    requires ThresholdCurrentlyCrossed(comparison, angle, angleThreshold)
    ensures CrossingStep(CrossingInit(cooldownFrames).(lastRelativePosition := Some(prev)), cooldownFrames, Some(cur)).1.Some?
    ensures ProximityStep(ProximityInit(cooldownFrames), cooldownFrames, thresholdDistance, Some(d)).1
    ensures AngleStep(AngleInit(cooldownFrames), cooldownFrames, comparison, angleThreshold, Some(angle)).1
  {
  }

  class JointAngleHandler {
    const joint1Name: string
    const joint2Name: string
    const joint3Name: string
    const angleThreshold: real
    const comparison: string
    const cooldownFrames: int
    var framesSinceLastEvent: int
    var thresholdCrossed: bool

    function State(): AngleState
      reads this
    {
      AngleState(thresholdCrossed, framesSinceLastEvent)
    }

    constructor (joint1Name: string, joint2Name: string, joint3Name: string, angleThreshold: real,
                 comparison: string := "less", cooldownFrames: int := 30)
      ensures this.angleThreshold == angleThreshold && this.comparison == comparison
      ensures this.cooldownFrames == cooldownFrames
      ensures State() == AngleInit(cooldownFrames)
    {
      this.joint1Name := joint1Name;
      this.joint2Name := joint2Name;
      this.joint3Name := joint3Name;
      this.angleThreshold := angleThreshold;
      this.comparison := comparison;
      this.cooldownFrames := cooldownFrames;
      framesSinceLastEvent := cooldownFrames;
      thresholdCrossed := false;
    }

    /** `on_joints_detected`; `angle` is None when any of the three joints is undetected. */
    method OnJointsDetected(angle: Option<real>) returns (fired: bool)
      modifies this
      ensures (State(), fired) == AngleStep(old(State()), cooldownFrames, comparison, angleThreshold, angle)
    {
      framesSinceLastEvent := framesSinceLastEvent + 1;
      fired := false;
      if angle.None? {
        return;
      }
      var crossedNow := ThresholdCurrentlyCrossed(comparison, angle.value, angleThreshold);
      if crossedNow && !thresholdCrossed && framesSinceLastEvent >= cooldownFrames {
        fired := true;
        framesSinceLastEvent := 0;
      }
      thresholdCrossed := crossedNow;
    }
  }
}
