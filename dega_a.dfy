/**
 * DEGA_A (src/algorithms/dega_a.py): each pass flips a coin between a
 * mutation with the deterministic replacement rule of DEGA_A, and an
 * exploitation step that first builds a uniform crossover `y` of the two
 * individuals and, when `y` beats the worse individual, refines the worse one
 * towards `y` for `int(hamm * log n)` first-improvement attempts, where `hamm`
 * is the Hamming distance between `y` and the worse individual.
 */
module DegaA {
  import opened Wrappers
  import opened Helper
  import opened Numeric
  import opened TwoPlusOne

  /** `int(hamm_dist * log(n))`, with `log(n)` given as `logN`. */
  function Tries(hamm: nat, logN: real): (k: int)
    ensures logN >= 0.0 ==> 0 <= k
  {
    Trunc(hamm as real * logN)
  }

  /** With `log n >= 0` the number of attempts is non-negative and grows with the distance. */
  lemma TriesBounds(hamm: nat, n: nat, logN: real)
    requires hamm <= n && logN >= 0.0
    ensures 0 <= Tries(hamm, logN) <= Tries(n, logN)
  {
    assert hamm as real * logN <= n as real * logN;
    TruncMonotone(hamm as real * logN, n as real * logN);
  }

  /** The mutation branch, with `s.x1` the parent and `s.x2` the other individual. */
  function MutationPass(problem: seq<int> -> int, o: Oracle, n: nat, p: Pop, t: int): (q: Progress)
    requires |p.x1| == n && |p.x2| == n
    ensures |q.pop.x1| == n && |q.pop.x2| == n
    ensures q.cnt == t + 1
  {
    var s := PickParent(p, o.parentCoin(t));
    var offspring := Mutate(s.x1, Mask(o, t, n));
    var r := SelectPopulationDegaA(offspring, s.x1, s.x2, problem(offspring), s.f1, s.f2);
    Progress(Pop(r.a, r.b, r.fa, r.fb), t + 1)
  }

  /**
   * The crossover branch: `y` is drawn from the population as it was, then
   * `x_1` is made the worse individual; only a `y` fitter than `x_1` starts
   * the refinement, which moves `x_1` towards `y`.
   */
  function CrossoverPass(problem: seq<int> -> int, o: Oracle, n: nat, logN: real, p: Pop, t: int): (q: Progress)
    requires |p.x1| == n && |p.x2| == n
    ensures |q.pop.x1| == n && |q.pop.x2| == n
    ensures q.cnt >= t + 1
  {
    var y := BiasedCrossover(p.x1, p.x2, Mask(o, t, n));
    var w := Ordered(p);
    var fy := problem(y);
    if fy > w.f1 then
      var r := RefineFirst(problem, o, n, w.x1, w.f1, y, t + 1, Tries(Hamming(y, w.x1), logN));
      Progress(w.(x1 := r.x, f1 := r.fx), r.cnt)
    else Progress(w, t + 1)
  }

  /** One pass of the loop body after the convergence check, at evaluation count `t`. */
  function Step(problem: seq<int> -> int, o: Oracle, n: nat, logN: real, p: Pop, t: int): (q: Progress)
    requires |p.x1| == n && |p.x2| == n
    ensures |q.pop.x1| == n && |q.pop.x2| == n
    ensures q.cnt >= t + 1
  {
    if o.mutateCoin(t) then MutationPass(problem, o, n, p, t) else CrossoverPass(problem, o, n, logN, p, t)
  }

  /** The pass at count `t` raises `ZeroDivisionError`: the mutation branch computes `self.chi / self.n`. */
  predicate DividesByZero(o: Oracle, n: nat, t: int) {
    o.mutateCoin(t) && n == 0
  }

  /** The loop from population `p` at count `cnt`, or the exception a pass raises. */
  function RunFrom(problem: seq<int> -> int, o: Oracle, n: nat, logN: real, optimum: int, maxEvals: int,
                   p: Pop, cnt: int): Result<(int, int), Exception>
    requires |p.x1| == n && |p.x2| == n
    decreases maxEvals - cnt
  {
    if cnt < maxEvals then
      if Best(p) >= optimum then Ok((Best(p), cnt))
      else if DividesByZero(o, n, cnt) then Err(ZeroDivisionError)
      else
        var s := Step(problem, o, n, logN, p, cnt);
        RunFrom(problem, o, n, logN, optimum, maxEvals, s.pop, s.cnt)
    else Ok((Best(p), cnt))
  }

  /**
   * A refinement only starts when `y` differs from `x_1`, so the bias
   * `1 / hamm_dist` is never a division by zero.
   */
  lemma RefinementDistancePositive(problem: seq<int> -> int, o: Oracle, n: nat, p: Pop, t: int)
    requires Consistent(p, n, problem)
    ensures var y := BiasedCrossover(p.x1, p.x2, Mask(o, t, n));
            var w := Ordered(p);
            problem(y) > w.f1 ==> Hamming(y, w.x1) >= 1
  {
  }

  /** Both individuals stay 0/1 vectors of length `n` carrying their own fitness. */
  lemma StepConsistent(problem: seq<int> -> int, o: Oracle, n: nat, logN: real, p: Pop, t: int)
    requires Consistent(p, n, problem)
    ensures Consistent(Step(problem, o, n, logN, p, t).pop, n, problem)
  {
    if o.mutateCoin(t) {
      var s := PickParent(p, o.parentCoin(t));
      var offspring := Mutate(s.x1, Mask(o, t, n));
      assert IsBits(offspring);
    } else {
      var y := BiasedCrossover(p.x1, p.x2, Mask(o, t, n));
      assert IsBits(y);
    }
  }

  /**
   * The crossover branch keeps the better individual; the worse one is kept,
   * or replaced by the refinement attempt made last, which beat it: `y`
   * itself is never adopted.
   */
  lemma CrossoverPassOutcome(problem: seq<int> -> int, o: Oracle, n: nat, logN: real, p: Pop, t: int)
    requires |p.x1| == n && |p.x2| == n
    ensures var y := BiasedCrossover(p.x1, p.x2, Mask(o, t, n));
            var w := Ordered(p);
            var q := CrossoverPass(problem, o, n, logN, p, t);
            && q.pop.x2 == w.x2 && q.pop.f2 == w.f2
            && (q.pop.f1 <= w.f1 ==> q.pop == w)
            && (q.pop.f1 > w.f1 ==>
                  q.cnt > t + 1 && q.pop.x1 == LastAttempt(o, n, w.x1, y, q.cnt) && q.pop.f1 == problem(q.pop.x1))
  {
    var y := BiasedCrossover(p.x1, p.x2, Mask(o, t, n));
    var w := Ordered(p);
    if problem(y) > w.f1 {
      RefineFirstOutcome(problem, o, n, w, y, t + 1, Tries(Hamming(y, w.x1), logN));
    }
  }

  /**
   * `max(f_1, f_2)` never decreases, and the worse individual's fitness never
   * decreases in the crossover branch.
   */
  lemma StepNeverWorsens(problem: seq<int> -> int, o: Oracle, n: nat, logN: real, p: Pop, t: int)
    requires |p.x1| == n && |p.x2| == n
    ensures Best(Step(problem, o, n, logN, p, t).pop) >= Best(p)
    ensures !o.mutateCoin(t) ==>
              var q := Step(problem, o, n, logN, p, t).pop;
              q.x2 == Ordered(p).x2 && q.f2 == Best(p) && q.f1 >= Min(p.f1, p.f2)
  {
  }

  /**
   * The counter advances by one for the offspring or for `y`, plus one per
   * refinement attempt, and at most `int(n log n)` attempts are made.
   */
  lemma StepCost(problem: seq<int> -> int, o: Oracle, n: nat, logN: real, p: Pop, t: int)
    requires |p.x1| == n && |p.x2| == n
    requires logN >= 0.0
    ensures t + 1 <= Step(problem, o, n, logN, p, t).cnt <= t + 1 + Tries(n, logN)
  {
    if !o.mutateCoin(t) {
      var y := BiasedCrossover(p.x1, p.x2, Mask(o, t, n));
      var w := Ordered(p);
      TriesBounds(Hamming(y, w.x1), n, logN);
    }
  }

  /**
   * What a run returns: a best fitness no lower than the start's; a count
   * below the budget only on convergence. The refinement does not look at the
   * budget, so without convergence the count reaches `maxEvals` and may
   * overshoot it by at most one full refinement. It fails only when `n` is 0.
   */
  lemma {:induction false} RunFromOutcome(problem: seq<int> -> int, o: Oracle, n: nat, logN: real,
                                          optimum: int, maxEvals: int, p: Pop, cnt: int)
    requires |p.x1| == n && |p.x2| == n
    ensures var r := RunFrom(problem, o, n, logN, optimum, maxEvals, p, cnt);
            && (r.Ok? ==>
                  && r.value.0 >= Best(p)
                  && cnt <= r.value.1
                  && (r.value.1 < maxEvals ==> r.value.0 >= optimum)
                  && (r.value.0 < optimum ==> r.value.1 >= maxEvals)
                  && (logN >= 0.0 ==> r.value.1 <= Max(cnt, maxEvals + Tries(n, logN))))
            && (r.Err? ==> r.error == ZeroDivisionError && n == 0)
    decreases maxEvals - cnt
  {
    if cnt < maxEvals && Best(p) < optimum && !DividesByZero(o, n, cnt) {
      var s := Step(problem, o, n, logN, p, cnt);
      StepNeverWorsens(problem, o, n, logN, p, cnt);
      if logN >= 0.0 {
        StepCost(problem, o, n, logN, p, cnt);
      }
      RunFromOutcome(problem, o, n, logN, optimum, maxEvals, s.pop, s.cnt);
    }
  }

  /** An instance of DEGA_A; it has no crossover bias parameter. */
  class DegaA {
    const n: nat
    const chi: real

    /** `DEGA_A.__init__(n)`; `chi` is fixed at 1.0. */
    constructor (n: nat)
      ensures this.n == n && chi == 1.0
    {
      this.n := n;
      chi := 1.0;
    }

    /** `DEGA_A.run(problem, optimum, max_evals)`, with `log(n)` given as `logN`. */
    method Run(problem: seq<int> -> int, o: Oracle, logN: real, optimum: int, maxEvals: int)
      returns (r: Result<(int, int), Exception>)
      ensures r == RunFrom(problem, o, n, logN, optimum, maxEvals, InitialPop(problem, o, n), 2)
      ensures r.Ok? ==> r.value.0 >= Best(InitialPop(problem, o, n))
      ensures r.Ok? ==> r.value.1 >= 2
      ensures r.Ok? && r.value.1 < maxEvals ==> r.value.0 >= optimum
      ensures r.Ok? && r.value.0 < optimum ==> r.value.1 >= maxEvals
      ensures r.Ok? && logN >= 0.0 ==> r.value.1 <= Max(2, maxEvals + Tries(n, logN))
      ensures r.Err? ==> r.error == ZeroDivisionError && n == 0
    {
      var x1 := InitialVector(o, n);
      var x2 := Complement(x1);
      var f1 := problem(x1);
      var f2 := problem(x2);
      var cnt := 2;
      ghost var start := InitialPop(problem, o, n);
      RunFromOutcome(problem, o, n, logN, optimum, maxEvals, start, 2);
      while cnt < maxEvals
        invariant |x1| == n && |x2| == n
        invariant RunFrom(problem, o, n, logN, optimum, maxEvals, Pop(x1, x2, f1, f2), cnt)
                  == RunFrom(problem, o, n, logN, optimum, maxEvals, start, 2)
        decreases maxEvals - cnt
      {
        if Max(f1, f2) >= optimum {
          return Ok((Max(f1, f2), cnt));
        }
        ghost var before := Pop(x1, x2, f1, f2);
        ghost var t := cnt;
        if o.mutateCoin(cnt) {
          if n == 0 {
            return Err(ZeroDivisionError);
          }
          var parent, other, fParent, fOther := x1, x2, f1, f2;
          if !o.parentCoin(cnt) {
            parent, other, fParent, fOther := x2, x1, f2, f1;
          }
          var offspring := Mutate(parent, Mask(o, cnt, n));
          var fOff := problem(offspring);
          cnt := cnt + 1;
          var s := SelectPopulationDegaA(offspring, parent, other, fOff, fParent, fOther);
          x1, x2, f1, f2 := s.a, s.b, s.fa, s.fb;
          assert Progress(Pop(x1, x2, f1, f2), cnt) == MutationPass(problem, o, n, before, t);
        } else {
          var y := BiasedCrossover(x1, x2, Mask(o, cnt, n));
          if f1 > f2 {
            x1, x2 := x2, x1;
            f1, f2 := f2, f1;
          }
          assert Pop(x1, x2, f1, f2) == Ordered(before);
          var fy := problem(y);
          cnt := cnt + 1;
          if fy > f1 {
            var hamm := Hamming(y, x1);
            x1, f1, cnt := RefineFirstLoop(problem, o, n, x1, f1, y, cnt, Tries(hamm, logN));
          }
          assert Progress(Pop(x1, x2, f1, f2), cnt) == CrossoverPass(problem, o, n, logN, before, t);
        }
        assert Progress(Pop(x1, x2, f1, f2), cnt) == Step(problem, o, n, logN, before, t);
      }
      r := Ok((Max(f1, f2), cnt));
    }
  }
}
