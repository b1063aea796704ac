/**
 * DEGA_B (src/algorithms/dega_b.py): like DEGA_A a coin decides between a
 * mutation and an exploitation step, but the mutation keeps `other` and
 * lets parent and offspring compete for the second slot, and the
 * exploitation always makes `u` unbiased crossover attempts between the
 * worse individual and `y`, replacing `y` by every attempt fitter than the
 * worse individual, and finally replaces the worse individual by `y`.
 */
module DegaB {
  import opened Wrappers
  import opened Helper
  import opened Numeric
  import opened TwoPlusOne

  /**
   * The fixed-length refinement: `for _ in range(u): off = biased_crossover(x_1, y, 1/2);
   * cnt += 1; if f(off) > f_1: y = off`. The comparison is against the fixed
   * `f_1`, not against `f(y)`.
   */
  function RefineAll(problem: seq<int> -> int, o: Oracle, n: nat,
                     x1: seq<int>, f1: int, y: seq<int>, fy: int, c: int, k: int): (r: Refined)
    requires |x1| == n && |y| == n
    ensures |r.x| == n
    ensures IsBits(x1) && IsBits(y) ==> IsBits(r.x)
    ensures r.cnt == c + Max(k, 0)
    ensures (r.x == y && r.fx == fy) || (r.fx > f1 && r.fx == problem(r.x))
    decreases k
  {
    if k <= 0 then Refined(y, fy, c)
    else
      var off := BiasedCrossover(x1, y, Mask(o, c, n));
      var fOff := problem(off);
      if fOff > f1 then RefineAll(problem, o, n, x1, f1, off, fOff, c + 1, k - 1)
      else RefineAll(problem, o, n, x1, f1, y, fy, c + 1, k - 1)
  }

  /** A `y` fitter than `x_1` stays fitter than `x_1` through the whole refinement. */
  lemma {:induction false} RefineAllImproves(problem: seq<int> -> int, o: Oracle, n: nat,
                                             x1: seq<int>, f1: int, y: seq<int>, fy: int, c: int, k: int)
    requires |x1| == n && |y| == n
    requires fy > f1
    ensures RefineAll(problem, o, n, x1, f1, y, fy, c, k).fx > f1
    decreases k
  {
    if k > 0 {
      var off := BiasedCrossover(x1, y, Mask(o, c, n));
      if problem(off) > f1 {
        RefineAllImproves(problem, o, n, x1, f1, off, problem(off), c + 1, k - 1);
      } else {
        RefineAllImproves(problem, o, n, x1, f1, y, fy, c + 1, k - 1);
      }
    }
  }

  /**
   * `y` is replaced by any attempt fitter than `x_1`, also by one less fit
   * than `y` itself: with `f([1,1]) = 10`, `f([1,0]) = 5` and a mask taking
   * the first bit from `y`, one attempt from `x_1 = [0,0]` ends with fitness 5.
   */
  lemma RefineAllMayLoseFitness(o: Oracle, c: int)
    requires o.maskBit(c, 0) && !o.maskBit(c, 1)
    ensures var problem := (v: seq<int>) => if v == [1, 1] then 10 else if v == [1, 0] then 5 else 0;
            RefineAll(problem, o, 2, [0, 0], 0, [1, 1], 10, c, 1) == Refined([1, 0], 5, c + 1)
  {
    var off := BiasedCrossover([0, 0], [1, 1], Mask(o, c, 2));
    assert off == [1, 0];
  }

  /** The mutation branch: `other` first, then the better of parent and offspring. */
  function MutationPass(problem: seq<int> -> int, o: Oracle, n: nat, p: Pop, t: int): (q: Progress)
    requires |p.x1| == n && |p.x2| == n
    ensures |q.pop.x1| == n && |q.pop.x2| == n
    ensures q.cnt == t + 1
  {
    var s := PickParent(p, o.parentCoin(t));
    var offspring := Mutate(s.x1, Mask(o, t, n));
    var r := SelectPopulationAlterParent(s.x2, s.x1, offspring, s.f2, s.f1, problem(offspring), o.choice(t));
    Progress(Pop(r.a, r.b, r.fa, r.fb), t + 1)
  }

  /** The crossover branch: `y` from the population as it was, `x_1` then made the worse individual. */
  function CrossoverPass(problem: seq<int> -> int, o: Oracle, n: nat, u: int, p: Pop, t: int): (q: Progress)
    requires |p.x1| == n && |p.x2| == n
    ensures |q.pop.x1| == n && |q.pop.x2| == n
    ensures q.cnt >= t + 1
  {
    var y := BiasedCrossover(p.x1, p.x2, Mask(o, t, n));
    var w := Ordered(p);
    var fy := problem(y);
    if fy > w.f1 then
      var r := RefineAll(problem, o, n, w.x1, w.f1, y, fy, t + 1, u);
      Progress(w.(x1 := r.x, f1 := r.fx), r.cnt)
    else Progress(w, t + 1)
  }

  /** One pass of the loop body after the convergence check, at evaluation count `t`. */
  function Step(problem: seq<int> -> int, o: Oracle, n: nat, u: int, p: Pop, t: int): (q: Progress)
    requires |p.x1| == n && |p.x2| == n
    ensures |q.pop.x1| == n && |q.pop.x2| == n
    ensures q.cnt >= t + 1
  {
    if o.mutateCoin(t) then MutationPass(problem, o, n, p, t) else CrossoverPass(problem, o, n, u, p, t)
  }

  /** The pass at count `t` raises `ZeroDivisionError`: the mutation branch computes `self.chi / self.n`. */
  predicate DividesByZero(o: Oracle, n: nat, t: int) {
    o.mutateCoin(t) && n == 0
  }

  /** The loop from population `p` at count `cnt`, or the exception a pass raises. */
  function RunFrom(problem: seq<int> -> int, o: Oracle, n: nat, u: int, optimum: int, maxEvals: int,
                   p: Pop, cnt: int): Result<(int, int), Exception>
    requires |p.x1| == n && |p.x2| == n
    decreases maxEvals - cnt
  {
    if cnt < maxEvals then
      if Best(p) >= optimum then Ok((Best(p), cnt))
      else if DividesByZero(o, n, cnt) then Err(ZeroDivisionError)
      else
        var s := Step(problem, o, n, u, p, cnt);
        RunFrom(problem, o, n, u, optimum, maxEvals, s.pop, s.cnt)
    else Ok((Best(p), cnt))
  }

  /** Both individuals stay 0/1 vectors of length `n` carrying their own fitness. */
  lemma StepConsistent(problem: seq<int> -> int, o: Oracle, n: nat, u: int, p: Pop, t: int)
    requires Consistent(p, n, problem)
    ensures Consistent(Step(problem, o, n, u, p, t).pop, n, problem)
  {
    if o.mutateCoin(t) {
      var s := PickParent(p, o.parentCoin(t));
      var offspring := Mutate(s.x1, Mask(o, t, n));
      assert IsBits(offspring);
    } else {
      var y := BiasedCrossover(p.x1, p.x2, Mask(o, t, n));
      assert IsBits(y);
    }
  }

  /**
   * The crossover branch costs exactly `1 + max(u, 0)` evaluations when `y`
   * beats the worse individual, and then strictly improves that individual;
   * otherwise it costs one evaluation and only reorders the population.
   */
  lemma CrossoverPassOutcome(problem: seq<int> -> int, o: Oracle, n: nat, u: int, p: Pop, t: int)
    requires |p.x1| == n && |p.x2| == n
    ensures var y := BiasedCrossover(p.x1, p.x2, Mask(o, t, n));
            var w := Ordered(p);
            var q := CrossoverPass(problem, o, n, u, p, t);
            && q.pop.x2 == w.x2 && q.pop.f2 == w.f2
            && (problem(y) > w.f1 ==> q.cnt == t + 1 + Max(u, 0) && q.pop.f1 > w.f1)
            && (problem(y) <= w.f1 ==> q == Progress(w, t + 1))
  {
    var y := BiasedCrossover(p.x1, p.x2, Mask(o, t, n));
    var w := Ordered(p);
    if problem(y) > w.f1 {
      RefineAllImproves(problem, o, n, w.x1, w.f1, y, problem(y), t + 1, u);
    }
  }

  /** `max(f_1, f_2)` never decreases. */
  lemma StepNeverWorsens(problem: seq<int> -> int, o: Oracle, n: nat, u: int, p: Pop, t: int)
    requires |p.x1| == n && |p.x2| == n
    ensures Best(Step(problem, o, n, u, p, t).pop) >= Best(p)
  {
    if !o.mutateCoin(t) {
      CrossoverPassOutcome(problem, o, n, u, p, t);
    }
  }

  /**
   * What a run returns: a best fitness no lower than the start's; a count
   * below the budget only on convergence; without convergence a count of at
   * least `maxEvals` and at most one full refinement beyond it. It fails
   * only when `n` is 0.
   */
  lemma {:induction false} RunFromOutcome(problem: seq<int> -> int, o: Oracle, n: nat, u: int,
                                          optimum: int, maxEvals: int, p: Pop, cnt: int)
    requires |p.x1| == n && |p.x2| == n
    ensures var r := RunFrom(problem, o, n, u, optimum, maxEvals, p, cnt);
            && (r.Ok? ==>
                  && r.value.0 >= Best(p)
                  && cnt <= r.value.1 <= Max(cnt, maxEvals + Max(u, 0))
                  && (r.value.1 < maxEvals ==> r.value.0 >= optimum)
                  && (r.value.0 < optimum ==> r.value.1 >= maxEvals))
            && (r.Err? ==> r.error == ZeroDivisionError && n == 0)
    decreases maxEvals - cnt
  {
    if cnt < maxEvals && Best(p) < optimum && !DividesByZero(o, n, cnt) {
      var s := Step(problem, o, n, u, p, cnt);
      StepNeverWorsens(problem, o, n, u, p, cnt);
      if !o.mutateCoin(cnt) {
        CrossoverPassOutcome(problem, o, n, u, p, cnt);
      }
      RunFromOutcome(problem, o, n, u, optimum, maxEvals, s.pop, s.cnt);
    }
  }

  /** The refinement loop as the algorithm runs it. */
  method RefineAllLoop(problem: seq<int> -> int, o: Oracle, n: nat,
                       x1: seq<int>, f1: int, y: seq<int>, fy: int, cnt: int, u: int)
    returns (y': seq<int>, fy': int, cnt': int)
    requires |x1| == n && |y| == n
    ensures Refined(y', fy', cnt') == RefineAll(problem, o, n, x1, f1, y, fy, cnt, u)
  {
    y', fy', cnt' := y, fy, cnt;
    var i := 0;
    while i < u
      invariant 0 <= i && cnt' == cnt + i && |y'| == n
      invariant RefineAll(problem, o, n, x1, f1, y', fy', cnt', u - i)
                == RefineAll(problem, o, n, x1, f1, y, fy, cnt, u)
      decreases u - i
    {
      var offspring := BiasedCrossover(x1, y', Mask(o, cnt', n));
      var fOff := problem(offspring);
      cnt' := cnt' + 1;
      if fOff > f1 {
        y' := offspring;
        fy' := fOff;
      }
      i := i + 1;
    }
  }

  /** The crossover branch of the loop body, run on the loop's variables. */
  method CrossoverPhase(problem: seq<int> -> int, o: Oracle, n: nat, u: int,
                        x1: seq<int>, x2: seq<int>, f1: int, f2: int, cnt: int)
    returns (x1': seq<int>, x2': seq<int>, f1': int, f2': int, cnt': int)
    requires |x1| == n && |x2| == n
    ensures Progress(Pop(x1', x2', f1', f2'), cnt') == CrossoverPass(problem, o, n, u, Pop(x1, x2, f1, f2), cnt)
  {
    var y := BiasedCrossover(x1, x2, Mask(o, cnt, n));
    x1', x2', f1', f2' := x1, x2, f1, f2;
    if f1' > f2' {
      x1', x2' := x2', x1';
      f1', f2' := f2', f1';
    }
    assert Pop(x1', x2', f1', f2') == Ordered(Pop(x1, x2, f1, f2));
    var fy := problem(y);
    cnt' := cnt + 1;
    if fy > f1' {
      x1', f1', cnt' := RefineAllLoop(problem, o, n, x1', f1', y, fy, cnt', u);
    }
  }

  /** An instance of DEGA_B with its number `u` of crossover attempts. */
  class DegaB {
    const n: nat
    const chi: real
    const u: int

    /** `DEGA_B.__init__(n, u=None)`: `u` defaults to `int(10 * log(n))`, with `log(n)` given as `logN`. */
    constructor (n: nat, u: Option<int>, logN: real)
      ensures this.n == n && chi == 1.0
      ensures this.u == (if u.None? then Trunc(10.0 * logN) else u.value)
    {
      this.n := n;
      chi := 1.0;
      this.u := if u.None? then Trunc(10.0 * logN) else u.value;
    }

    /** `DEGA_B.run(problem, optimum, max_evals)`. */
    method Run(problem: seq<int> -> int, o: Oracle, optimum: int, maxEvals: int)
      returns (r: Result<(int, int), Exception>)
      ensures r == RunFrom(problem, o, n, u, optimum, maxEvals, InitialPop(problem, o, n), 2)
      ensures r.Ok? ==> r.value.0 >= Best(InitialPop(problem, o, n))
      ensures r.Ok? ==> 2 <= r.value.1 <= Max(2, maxEvals + Max(u, 0))
      ensures r.Ok? && r.value.1 < maxEvals ==> r.value.0 >= optimum
      ensures r.Ok? && r.value.0 < optimum ==> r.value.1 >= maxEvals
      ensures r.Err? ==> r.error == ZeroDivisionError && n == 0
    {
      var x1 := InitialVector(o, n);
      var x2 := Complement(x1);
      var f1 := problem(x1);
      var f2 := problem(x2);
      var cnt := 2;
      ghost var start := InitialPop(problem, o, n);
      RunFromOutcome(problem, o, n, u, optimum, maxEvals, start, 2);
      while cnt < maxEvals
        invariant |x1| == n && |x2| == n
        invariant RunFrom(problem, o, n, u, optimum, maxEvals, Pop(x1, x2, f1, f2), cnt)
                  == RunFrom(problem, o, n, u, optimum, maxEvals, start, 2)
        decreases maxEvals - cnt
      {
        if Max(f1, f2) >= optimum {
          return Ok((Max(f1, f2), cnt));
        }
        ghost var before := Pop(x1, x2, f1, f2);
        ghost var t := cnt;
        if o.mutateCoin(cnt) {
          if n == 0 {
            return Err(ZeroDivisionError);
          }
          var parent, other, fParent, fOther := x1, x2, f1, f2;
          if !o.parentCoin(cnt) {
            parent, other, fParent, fOther := x2, x1, f2, f1;
          }
          var offspring := Mutate(parent, Mask(o, cnt, n));
          var fOff := problem(offspring);
          var choice := o.choice(cnt);
          cnt := cnt + 1;
          var s := SelectPopulationAlterParent(other, parent, offspring, fOther, fParent, fOff, choice);
          x1, x2, f1, f2 := s.a, s.b, s.fa, s.fb;
          assert Progress(Pop(x1, x2, f1, f2), cnt) == MutationPass(problem, o, n, before, t);
        } else {
          x1, x2, f1, f2, cnt := CrossoverPhase(problem, o, n, u, x1, x2, f1, f2, cnt);
        }
        assert Progress(Pop(x1, x2, f1, f2), cnt) == Step(problem, o, n, u, before, t);
      }
      r := Ok((Max(f1, f2), cnt));
    }
  }
}
