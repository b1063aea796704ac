/** Python's numeric conversions used by the algorithms and the configuration code. */
module Numeric {

  /** `int(v)` for a float `v`: truncation toward zero. */
  function Trunc(v: real): (k: int)
    ensures v >= 0.0 ==> k >= 0 && k as real <= v < k as real + 1.0
    ensures v < 0.0 ==> k <= 0 && k as real - 1.0 < v <= k as real
  {
    if v >= 0.0 then v.Floor else -((-v).Floor)
  }

  /** Truncation is monotone. */
  lemma {:induction false} TruncMonotone(v: real, w: real)
    requires v <= w
    ensures Trunc(v) <= Trunc(w)
  {
    if v < 0.0 && w >= 0.0 {
    } else if v >= 0.0 {
      assert v.Floor <= w.Floor;
    } else {
      assert (-w).Floor <= (-v).Floor;
    }
  }

  /** Truncation, unlike the floor, rounds a negative fraction up to 0. */
  lemma TruncOfNegativeFraction()
    ensures Trunc(-0.5) == 0 && (-0.5).Floor == -1
  {
  }
}
