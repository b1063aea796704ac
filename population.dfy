/**
 * The state and the random source shared by the (2+1) algorithms DEGA,
 * DEGA_A, DEGA_B and DEGA_Limit: a population of two candidates with their
 * fitnesses, its initialisation (a random vector and its complement), and
 * the first-improvement refinement loop of DEGA_A and DEGA_Limit.
 */
module TwoPlusOne {
  import opened Helper

  /**
   * The random numbers a run draws. A draw is identified by its kind and by
   * the evaluation counter `t` at the moment it is made (the count of
   * fitness evaluations done so far); within one value of `t` each kind is
   * drawn at most once, so every draw of a run has its own entry. A mask is
   * drawn one bit per position; its rate (`chi/n`, `1/lamb`, `0.5`,
   * `1/hamm_dist`) is only a label on these bits.
   */
  datatype Oracle = Oracle(
    initBit: nat -> bool,         // np.random.randint(0, 2, size=n)[i] == 1
    mutateCoin: int -> bool,      // random.random() < 0.5: mutation rather than crossover
    parentCoin: int -> bool,      // random.random() < 0.5: x_1 is the parent
    maskBit: (int, nat) -> bool,  // np.random.rand(n)[i] < rate
    choice: int -> nat            // the index random.choice draws
  )

  /** The mask drawn at evaluation count `t` for vectors of length `n`. */
  function Mask(o: Oracle, t: int, n: nat): (m: seq<bool>)
    ensures |m| == n
  {
    seq(n, i requires 0 <= i < n => o.maskBit(t, i))
  }

  /** Bitwise complement `1 - x`. */
  function Complement(x: seq<int>): (r: seq<int>)
    ensures |r| == |x|
    ensures forall i :: 0 <= i < |x| ==> r[i] == 1 - x[i]
    ensures IsBits(x) ==> IsBits(r)
    ensures Hamming(x, r) == |x|
  {
    var r := seq(|x|, i requires 0 <= i < |x| => 1 - x[i]);
    HammingOfMask(x, r, seq(|x|, i => true));
    AllTrueCount(|x|);
    r
  }

  /** The two individuals and their fitnesses (`x_1, x_2, f_1, f_2`). */
  datatype Pop = Pop(x1: seq<int>, x2: seq<int>, f1: int, f2: int)

  /** `max(f_1, f_2)`, the value every run returns. */
  function Best(p: Pop): int { Max(p.f1, p.f2) }

  /** Both individuals are 0/1 vectors of length `n` and carry their own fitness. */
  predicate Consistent(p: Pop, n: nat, problem: seq<int> -> int) {
    && |p.x1| == n && |p.x2| == n
    && IsBits(p.x1) && IsBits(p.x2)
    && p.f1 == problem(p.x1) && p.f2 == problem(p.x2)
  }

  /** The random initial vector `x_1`. */
  function InitialVector(o: Oracle, n: nat): (x: seq<int>)
    ensures |x| == n && IsBits(x)
  {
    seq(n, i requires 0 <= i < n => if o.initBit(i) then 1 else 0)
  }

  /** `x_1` random, `x_2 = 1 - x_1`, both evaluated (2 evaluations). */
  function InitialPop(problem: seq<int> -> int, o: Oracle, n: nat): (p: Pop)
    ensures Consistent(p, n, problem)
    ensures p.x2 == Complement(p.x1)
    ensures Hamming(p.x1, p.x2) == n
  {
    var x1 := InitialVector(o, n);
    var x2 := Complement(x1);
    Pop(x1, x2, problem(x1), problem(x2))
  }

  lemma {:induction false} AllTrueCount(n: nat)
    ensures CountTrue(seq(n, i => true)) == n
  {
    if n > 0 {
      assert seq(n, i => true)[1..] == seq(n - 1, i => true);
      AllTrueCount(n - 1);
    }
  }

  /** Exchange the two individuals. */
  function Swap(p: Pop): Pop { Pop(p.x2, p.x1, p.f2, p.f1) }

  /** `if f_1 > f_2: swap`, so that `x_1` is the worse individual. */
  function Ordered(p: Pop): (q: Pop)
    ensures q.f1 <= q.f2
    ensures q == p || q == Swap(p)
    ensures Best(q) == Best(p) && q.f2 == Best(p)
  {
    if p.f1 > p.f2 then Swap(p) else p
  }

  /** The `(parent, other, f_parent, f_other)` split, as a population with the parent first. */
  function PickParent(p: Pop, coin: bool): (q: Pop)
    ensures q == p || q == Swap(p)
  {
    if coin then p else Swap(p)
  }

  lemma SwapConsistent(p: Pop, n: nat, problem: seq<int> -> int)
    requires Consistent(p, n, problem)
    ensures Consistent(Swap(p), n, problem) && Best(Swap(p)) == Best(p)
  {
  }

  /** A population together with the evaluation counter. */
  datatype Progress = Progress(pop: Pop, cnt: int)

  /** Outcome of a refinement loop: the (possibly new) worse individual, its fitness, and the counter. */
  datatype Refined = Refined(x: seq<int>, fx: int, cnt: int)

  /**
   * The first-improvement refinement of DEGA_A and DEGA_Limit:
   * `for _ in range(k): off = biased_crossover(x_1, y, bias); cnt += 1;
   * if f(off) > f_1: x_1 = off; break`. `x_1` stays fixed until the attempt
   * that improves on it.
   */
  function RefineFirst(problem: seq<int> -> int, o: Oracle, n: nat,
                       x1: seq<int>, f1: int, y: seq<int>, c: int, k: int): (r: Refined)
    requires |x1| == n && |y| == n
    ensures |r.x| == n
    ensures IsBits(x1) && IsBits(y) ==> IsBits(r.x)
    ensures c <= r.cnt <= c + Max(k, 0)
    ensures (r.x == x1 && r.fx == f1 && r.cnt == c + Max(k, 0))
            || (r.fx > f1 && r.fx == problem(r.x) && r.cnt > c)
    decreases k
  {
    if k <= 0 then Refined(x1, f1, c)
    else
      var off := BiasedCrossover(x1, y, Mask(o, c, n));
      var fOff := problem(off);
      if fOff > f1 then Refined(off, fOff, c + 1)
      else RefineFirst(problem, o, n, x1, f1, y, c + 1, k - 1)
  }

  /**
   * The refinement loop as the algorithms run it, with the evaluation counter
   * `cnt` advanced once per attempt and `break` on the first improvement.
   */
  method RefineFirstLoop(problem: seq<int> -> int, o: Oracle, n: nat,
                         x1: seq<int>, f1: int, y: seq<int>, cnt: int, tries: int)
    returns (x: seq<int>, fx: int, cnt': int)
    requires |x1| == n && |y| == n
    ensures Refined(x, fx, cnt') == RefineFirst(problem, o, n, x1, f1, y, cnt, tries)
  {
    x, fx, cnt' := x1, f1, cnt;
    var i := 0;
    while i < tries
      invariant 0 <= i && cnt' == cnt + i
      invariant x == x1 && fx == f1
      invariant RefineFirst(problem, o, n, x, fx, y, cnt', tries - i)
                == RefineFirst(problem, o, n, x1, f1, y, cnt, tries)
      decreases tries - i
    {
      var off := BiasedCrossover(x, y, Mask(o, cnt', n));
      var fOff := problem(off);
      cnt' := cnt' + 1;
      if fOff > fx {
        x := off;
        fx := fOff;
        return;
      }
      i := i + 1;
    }
  }

  /** The attempt made at evaluation count `t` of a refinement of `x1` towards `y`. */
  function Attempt(o: Oracle, n: nat, x1: seq<int>, y: seq<int>, t: int): (r: seq<int>)
    requires |x1| == n && |y| == n
    ensures |r| == n
    ensures IsBits(x1) && IsBits(y) ==> IsBits(r)
  {
    BiasedCrossover(x1, y, Mask(o, t, n))
  }

  /** The attempt whose evaluation brought the count to `cnt`, that is, the one made at count `cnt - 1`. */
  function LastAttempt(o: Oracle, n: nat, x1: seq<int>, y: seq<int>, cnt: int): (r: seq<int>)
    requires |x1| == n && |y| == n
    ensures |r| == n
  {
    Attempt(o, n, x1, y, cnt - 1)
  }

  /**
   * The refinement is first-improvement: every attempt before the last one
   * failed to beat `f1`.
   */
  lemma {:induction false} RefineFirstEarlierAttemptsFail(problem: seq<int> -> int, o: Oracle, n: nat,
                                                           x1: seq<int>, f1: int, y: seq<int>,
                                                           c: int, k: int, t: int)
    requires |x1| == n && |y| == n
    requires c <= t < RefineFirst(problem, o, n, x1, f1, y, c, k).cnt - 1
    ensures problem(Attempt(o, n, x1, y, t)) <= f1
    decreases k
  {
    var off := Attempt(o, n, x1, y, c);
    if problem(off) <= f1 && t > c {
      RefineFirstEarlierAttemptsFail(problem, o, n, x1, f1, y, c + 1, k - 1, t);
    }
  }

  /**
   * The loop ends with an improvement exactly when its last attempt beat
   * `f1`, and that attempt is the one adopted.
   */
  lemma {:induction false} RefineFirstAdoptsLastAttempt(problem: seq<int> -> int, o: Oracle, n: nat,
                                                         x1: seq<int>, f1: int, y: seq<int>,
                                                         c: int, k: int)
    requires |x1| == n && |y| == n
    ensures var r := RefineFirst(problem, o, n, x1, f1, y, c, k);
            r.fx > f1 ==> r.cnt > c && r.x == LastAttempt(o, n, x1, y, r.cnt)
                          && problem(LastAttempt(o, n, x1, y, r.cnt)) > f1
    ensures var r := RefineFirst(problem, o, n, x1, f1, y, c, k);
            r.fx <= f1 ==> r.cnt <= c || problem(LastAttempt(o, n, x1, y, r.cnt)) <= f1
    decreases k
  {
    var r := RefineFirst(problem, o, n, x1, f1, y, c, k);
    if k <= 0 {
      assert r == Refined(x1, f1, c);
    } else {
      var off := Attempt(o, n, x1, y, c);
      if problem(off) > f1 {
        assert r == Refined(off, problem(off), c + 1);
        assert LastAttempt(o, n, x1, y, c + 1) == off;
      } else {
        var r' := RefineFirst(problem, o, n, x1, f1, y, c + 1, k - 1);
        assert r == r';
        RefineFirstAdoptsLastAttempt(problem, o, n, x1, f1, y, c + 1, k - 1);
        if r'.cnt == c + 1 {
          assert r'.x == x1 && r'.fx == f1;
          assert LastAttempt(o, n, x1, y, r'.cnt) == off;
        }
      }
    }
  }

  /**
   * A refinement of the worse individual of `w`, put back into `w`, either
   * leaves `w` as it was or adopts its last attempt, which beat `f_1`.
   */
  lemma RefineFirstOutcome(problem: seq<int> -> int, o: Oracle, n: nat, w: Pop, y: seq<int>, c: int, k: int)
    requires |w.x1| == n && |y| == n
    ensures RefineFirst(problem, o, n, w.x1, w.f1, y, c, k).fx <= w.f1 ==>
              RefineFirst(problem, o, n, w.x1, w.f1, y, c, k).x == w.x1 &&
              RefineFirst(problem, o, n, w.x1, w.f1, y, c, k).fx == w.f1
    ensures RefineFirst(problem, o, n, w.x1, w.f1, y, c, k).fx > w.f1 ==>
              RefineFirst(problem, o, n, w.x1, w.f1, y, c, k).cnt > c &&
              RefineFirst(problem, o, n, w.x1, w.f1, y, c, k).x ==
                LastAttempt(o, n, w.x1, y, RefineFirst(problem, o, n, w.x1, w.f1, y, c, k).cnt) &&
              RefineFirst(problem, o, n, w.x1, w.f1, y, c, k).fx == problem(RefineFirst(problem, o, n, w.x1, w.f1, y, c, k).x)
  {
    RefineFirstAdoptsLastAttempt(problem, o, n, w.x1, w.f1, y, c, k);
  }
}
