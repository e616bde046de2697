/**
 * Exercise metrics as the source keeps them: a dictionary from metric name
 * to a numeric value.
 */
module MetricMaps {
  type Metrics = map<string, real>

  /** Python's `dict.get(key, default)`. */
  function Get(m: Metrics, key: string, default: real): real {
    if key in m then m[key] else default
  }

  function Max(a: real, b: real): (r: real)
    ensures r >= a && r >= b && (r == a || r == b)
  {
    if a >= b then a else b
  }

  function Min(a: real, b: real): (r: real)
    ensures r <= a && r <= b && (r == a || r == b)
  {
    if a <= b then a else b
  }
}
