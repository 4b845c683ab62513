/** Game configuration shared by every entity, and the `boundscheck` clamp. */
module Config {

  /** The window resolution, in pixels (config['resolution'] is 800x600). */
  const ResX: real := 800.0
  const ResY: real := 600.0

  /** Player identifiers carried by a paddle. */
  const Player1: int := 1
  const Player2: int := 2

  /** `boundscheck(lower, upper, value)`: `max(min(upper, value), lower)`.
      The lower bound always wins, so the result is never below `lower`;
      when the bounds are ordered it lies in `[lower, upper]` and is the
      closest point of that interval to `value`. */
  function BoundsCheck(lower: real, upper: real, value: real): (r: real)
    ensures lower <= r
    ensures lower <= upper ==> r <= upper
    ensures lower <= value <= upper ==> r == value
    ensures value <= lower ==> r == lower
    ensures lower <= upper <= value ==> r == upper
    ensures upper < lower ==> r == lower
  {
    var m := if value < upper then value else upper;
    if lower > m then lower else m
  }

  /** Python's `abs` on a real. */
  function Abs(v: real): (r: real)
    ensures 0.0 <= r
    ensures r == v || r == -v
  {
    if v < 0.0 then -v else v
  }

  /** Clamping a value that is already clamped changes nothing. */
  lemma BoundsCheckIdempotent(lower: real, upper: real, value: real)
    ensures BoundsCheck(lower, upper, BoundsCheck(lower, upper, value)) == BoundsCheck(lower, upper, value)
  {
  }
}
