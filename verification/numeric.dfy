/** The engine's scalar helpers (Unity's `Mathf.Clamp`, `Mathf.Clamp01` and
    `Mathf.Round`), with `float` modelled as `real`. */
module Numeric {

  function Abs(x: real): real {
    if x < 0.0 then -x else x
  }

  /** `Mathf.Clamp`: `lo` below the range, `hi` above it, `x` itself inside. */
  function Clamp(x: real, lo: real, hi: real): (r: real)
    ensures lo <= hi ==> lo <= r <= hi
    ensures lo <= x <= hi ==> r == x
    ensures x < lo ==> r == lo
    ensures lo <= hi < x ==> r == hi
  {
    if x < lo then lo else if x > hi then hi else x
  }

  /** `r` is what clamping `x` to [0, 1] yields, stated case by case. */
  ghost predicate Clamped01(x: real, r: real) {
    && (x < 0.0 ==> r == 0.0)
    && (1.0 < x ==> r == 1.0)
    && (0.0 <= x <= 1.0 ==> r == x)
  }

  /** `Mathf.Clamp01`. */
  function Clamp01(x: real): (r: real)
    ensures 0.0 <= r <= 1.0
    ensures Clamped01(x, r)
  {
    Clamp(x, 0.0, 1.0)
  }

  /** `Mathf.Round`: the nearest integer. Unity documents that an exact half
      goes to the even neighbour; the contract leaves that case open. */
  function Round(x: real): (n: int)
    ensures Abs(n as real - x) <= 0.5
  {
    var f := x.Floor;
    var d := x - f as real;
    if d < 0.5 then f
    else if d > 0.5 then f + 1
    else if f % 2 == 0 then f else f + 1
  }

  /** Every other integer is at least half a unit from `x`, so no integer
      is closer to `x` than `Round(x)`. */
  lemma RoundIsNearest(x: real, m: int)
    ensures m != Round(x) ==> Abs(m as real - x) >= 0.5
  {
  }

  /** Rounding an integral value leaves it alone. */
  lemma RoundOfInteger(k: int)
    ensures Round(k as real) == k
  {
  }
}
