/**
 * The Jump benchmark (src/benchmarks/jump.py): OneMax with a gap of width
 * `m` just below the optimum, where fitness turns negative.
 */
module Jump {
  import opened Helper

  /** `int(arr.sum())`. */
  function Sum(x: seq<int>): int {
    if x == [] then 0 else x[0] + Sum(x[1..])
  }

  /** On a 0/1 vector the sum lies in `[0, n]` and is `n` exactly at the all-ones vector. */
  lemma {:induction false} SumOfBits(x: seq<int>)
    requires IsBits(x)
    ensures 0 <= Sum(x) <= |x|
    ensures Sum(x) == |x| <==> forall i :: 0 <= i < |x| ==> x[i] == 1
  {
    if x != [] {
      assert IsBits(x[1..]);
      SumOfBits(x[1..]);
      assert forall i :: 0 <= i < |x[1..]| ==> x[1..][i] == x[i + 1];
    }
  }

  /** `jump_m(arr, m)`, with `n = |x|` and the bit count `u`. */
  function JumpM(x: seq<int>, m: int): int {
    var n := |x|;
    var u := Sum(x);
    if u == n then n
    else if u <= n - m then u
    else (n - m) - u
  }

  /** Outside the gap the value is the bit count, as for OneMax. */
  lemma JumpOutsideGap(x: seq<int>, m: int)
    requires Sum(x) == |x| || Sum(x) <= |x| - m
    ensures JumpM(x, m) == Sum(x)
  {
  }

  /** The value is negative exactly inside the gap `n - m < u < n`. */
  lemma JumpNegativeInGap(x: seq<int>, m: int)
    requires IsBits(x)
    ensures JumpM(x, m) < 0 <==> |x| - m < Sum(x) < |x|
  {
    SumOfBits(x);
  }

  /** The global maximum is `n`, reached at the all-ones vector and nowhere else. */
  lemma JumpOptimum(x: seq<int>, m: int)
    requires IsBits(x)
    ensures JumpM(x, m) <= |x|
    ensures JumpM(x, m) == |x| <==> forall i :: 0 <= i < |x| ==> x[i] == 1
  {
    SumOfBits(x);
  }
}
