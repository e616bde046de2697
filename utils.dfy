/**
 * The geometric helper library of exercises/utils.py: offsets between joints,
 * above/below/alignment predicates, bilateral averaging, clamping and range
 * mapping, and the moving-average smoother. Angles and Euclidean distances
 * (arccos, norm) are not computed here; callers supply them as reals.
 */
module Utils {
  import opened Wrappers

  /** A joint position in normalised image coordinates (y grows downwards). */
  datatype Point = Point(x: real, y: real, z: real)

  function Abs(v: real): (r: real)
    ensures r >= 0.0 && (r == v || r == -v)
  {
    if v < 0.0 then -v else v
  }

  /** `calculate_vertical_distance`: positive when `a` is below `b`. */
  function VerticalDistance(a: Point, b: Point): real {
    a.y - b.y
  }

  /** `calculate_horizontal_distance` */
  function HorizontalDistance(a: Point, b: Point): (d: real)
    ensures d >= 0.0
  {
    Abs(a.x - b.x)
  }

  /** `get_midpoint` */
  function Midpoint(a: Point, b: Point): (m: Point)
    ensures VerticalDistance(m, a) == VerticalDistance(b, m)
    ensures m.x - a.x == b.x - m.x && m.z - a.z == b.z - m.z
  {
    Point((a.x + b.x) / 2.0, (a.y + b.y) / 2.0, (a.z + b.z) / 2.0)
  }

  /** `is_point_above`: `a` is higher in the image than `b` by more than `threshold`. */
  predicate IsPointAbove(a: Point, b: Point, threshold: real := 0.0) {
    a.y < b.y - threshold
  }

  /** `is_point_below` */
  predicate IsPointBelow(a: Point, b: Point, threshold: real := 0.0) {
    a.y > b.y + threshold
  }

  /** `is_aligned_vertically`: similar x coordinates. */
  predicate IsAlignedVertically(a: Point, b: Point, tolerance: real := 0.05) {
    Abs(a.x - b.x) < tolerance
  }

  /** `is_aligned_horizontally`: similar y coordinates. */
  predicate IsAlignedHorizontally(a: Point, b: Point, tolerance: real := 0.05) {
    Abs(a.y - b.y) < tolerance
  }

  lemma HorizontalDistanceSymmetric(a: Point, b: Point)
    ensures HorizontalDistance(a, b) == HorizontalDistance(b, a)
    ensures IsAlignedVertically(a, b) <==> HorizontalDistance(a, b) < 0.05
  {
  }

  /** Above and below are mirror images, and "above" by a non-negative margin is a negative vertical offset. */
  lemma AboveBelowMirror(a: Point, b: Point, threshold: real)
    ensures IsPointAbove(a, b, threshold) <==> IsPointBelow(b, a, threshold)
    ensures IsPointAbove(a, b, threshold) <==> VerticalDistance(a, b) < -threshold
    ensures threshold >= 0.0 ==> !(IsPointAbove(a, b, threshold) && IsPointBelow(a, b, threshold))
  {
  }

  /** `all_joints_detected`: Python's `all(j is not None for j in joints)`. */
  function AllJointsDetected<T>(joints: seq<Option<T>>): (r: bool)
    ensures r <==> forall i :: 0 <= i < |joints| ==> joints[i].Some?
  {
    if joints == [] then true
    else joints[0].Some? && AllJointsDetected(joints[1..])
  }

  /** `calculate_bilateral_average` */
  function BilateralAverage(left: Option<real>, right: Option<real>): (r: Option<real>)
    ensures r.None? <==> left.None? && right.None?
    ensures left.Some? && right.None? ==> r == left
    ensures left.None? && right.Some? ==> r == right
    ensures left.Some? && right.Some? ==> r.Some? && r.value - left.value == right.value - r.value
  {
    if left.None? && right.None? then None
    else if left.None? then right
    else if right.None? then left
    else Some((left.value + right.value) / 2.0)
  }

  /** The average of two present values lies between them. */
  lemma BilateralAverageBetween(l: real, r: real)
    ensures var m := BilateralAverage(Some(l), Some(r)).value;
      (l <= r ==> l <= m <= r) && (r <= l ==> r <= m <= l)
  {
  }

  /** `is_joint_extended`; the source's default threshold is 160 degrees. */
  predicate IsJointExtended(angle: real, threshold: real := 160.0) {
    angle > threshold
  }

  /** `is_joint_flexed`; the source's default threshold is 120 degrees. */
  predicate IsJointFlexed(angle: real, threshold: real := 120.0) {
    angle < threshold
  }

  /**
   * `map_value`: linear map sending [fromMin, fromMax] onto [toMin, toMax];
   * an empty source range is Python's ZeroDivisionError, `None` here.
   */
  function MapValue(value: real, fromMin: real, fromMax: real, toMin: real, toMax: real): Option<real> {
    if fromMin == fromMax then None
    else Some(toMin + (value - fromMin) * (toMax - toMin) / (fromMax - fromMin))
  }

  /** The map sends the ends of a non-empty range onto the ends of the target, and fails only on an empty one. */
  lemma MapValueEndpoints(fromMin: real, fromMax: real, toMin: real, toMax: real)
    ensures MapValue(fromMin, fromMin, fromMax, toMin, toMax).None? <==> fromMin == fromMax
    ensures fromMin != fromMax ==> MapValue(fromMin, fromMin, fromMax, toMin, toMax) == Some(toMin)
    ensures fromMin != fromMax ==> MapValue(fromMax, fromMin, fromMax, toMin, toMax) == Some(toMax)
  {
    if fromMin != fromMax {
      var w := fromMax - fromMin;
      assert w * (toMax - toMin) / w == toMax - toMin;
    }
  }

  /** Between the ends of the source range the value lands between the ends of the target. */
  lemma MapValueBetween(value: real, fromMin: real, fromMax: real, toMin: real, toMax: real)
    requires fromMin < fromMax && fromMin <= value <= fromMax && toMin <= toMax
    ensures toMin <= MapValue(value, fromMin, fromMax, toMin, toMax).value <= toMax
  {
    var w := fromMax - fromMin;
    var d := value - fromMin;
    var span := toMax - toMin;
    assert 0.0 <= d * span <= w * span by {
      assert 0.0 <= d <= w && 0.0 <= span;
      assert d * span <= w * span by {
        assert (w - d) * span >= 0.0;
      }
    }
    assert 0.0 <= d * span / w <= span by {
      assert w * span / w == span;
    }
  }

  /** `clamp`: `max(min_val, min(max_val, value))`. */
  function Clamp(value: real, minVal: real, maxVal: real): (r: real)
    ensures minVal <= maxVal ==> minVal <= r <= maxVal
    ensures minVal <= value <= maxVal ==> r == value
    ensures value < minVal ==> r == minVal
    ensures minVal <= maxVal < value ==> r == maxVal
    ensures maxVal < minVal ==> r == minVal
  {
    var upper := if maxVal < value then maxVal else value;
    if minVal < upper then upper else minVal
  }

  function Sum(s: seq<real>): real {
    if s == [] then 0.0 else s[0] + Sum(s[1..])
  }

  function Mean(s: seq<real>): real
    requires s != []
  {
    Sum(s) / (|s| as real)
  }

  /** The last `k` elements of `s` (all of `s` when it is shorter). */
  function LastN(s: seq<real>, k: nat): (r: seq<real>)
    ensures |r| == if |s| <= k then |s| else k
    ensures r == s[|s| - |r|..]
  {
    if |s| <= k then s else s[|s| - k..]
  }

  lemma {:induction false} SumBounds(s: seq<real>, lo: real, hi: real)
    requires forall i :: 0 <= i < |s| ==> lo <= s[i] <= hi
    ensures (|s| as real) * lo <= Sum(s) <= (|s| as real) * hi
  {
    if s != [] {
      SumBounds(s[1..], lo, hi);
    }
  }

  /** A smoothed value never leaves the range of the values it averages. */
  lemma MeanBounds(s: seq<real>, lo: real, hi: real)
    requires s != []
    requires forall i :: 0 <= i < |s| ==> lo <= s[i] <= hi
    ensures lo <= Mean(s) <= hi
  {
    SumBounds(s, lo, hi);
    var n := |s| as real;
    assert n * lo <= Sum(s) <= n * hi;
    assert n > 0.0;
    assert Sum(s) / n >= lo by {
      assert Sum(s) >= n * lo;
    }
    assert Sum(s) / n <= hi by {
      assert Sum(s) <= n * hi;
    }
  }

  /**
   * `MovingAverage`: a FIFO of at most `windowSize` values. `history` is the
   * ghost record of every value added since construction or the last reset;
   * the window is always its last `windowSize` elements.
   */
  class MovingAverage {
    const windowSize: int
    var values: seq<real>
    ghost var history: seq<real>

    ghost predicate Valid()
      reads this
    {
      windowSize >= 1 ==> values == LastN(history, windowSize)
    }

    constructor (windowSize: int := 5)
      ensures Valid()
      ensures this.windowSize == windowSize && values == [] && history == []
    {
      this.windowSize := windowSize;
      values := [];
      history := [];
    }

    /**
     * `add`: append, evict the oldest value if the window overflows, and return
     * the mean. Python raises ZeroDivisionError when the window is left empty,
     * which happens exactly when `window_size < 1`; that is `None` here.
     */
    method Add(value: real) returns (avg: Option<real>)
      requires Valid()
      modifies this
      ensures Valid()
      ensures history == old(history) + [value]
      ensures values == if |old(values)| + 1 > windowSize then (old(values) + [value])[1..] else old(values) + [value]
      ensures avg.None? <==> values == []
      ensures avg.Some? ==> avg.value == Mean(values)
      ensures windowSize >= 1 ==> avg.Some? && |values| <= windowSize
    {
      values := values + [value];
      history := history + [value];
      if |values| > windowSize {
        values := values[1..];
      }
      if values == [] {
        avg := None;
      } else {
        avg := Some(Sum(values) / (|values| as real));
      }
    }

    /** `reset` */
    method Reset()
      requires Valid()
      modifies this
      ensures Valid() && values == [] && history == []
    {
      values := [];
      history := [];
    }

    /** `get_average`: `None` on an empty window, else the mean of the window. */
    function GetAverage(): (r: Option<real>)
      reads this
      ensures r.None? <==> values == []
      ensures r.Some? ==> r.value == Mean(values)
    {
      if values == [] then None else Some(Mean(values))
    }
  }

  /** The setup check's scenario: a fresh window of 5, one `add(10)`, and the average is 10. */
  method SetupCheckScenario() returns (avg: Option<real>, added: Option<real>)
    ensures added == Some(10.0) && avg == Some(10.0)
  {
    var ma := new MovingAverage(5);
    added := ma.Add(10.0);
    assert ma.values == [10.0];
    assert Sum([10.0]) == 10.0 + Sum([]);
    avg := ma.GetAverage();
  }
}
