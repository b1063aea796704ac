/**
 * DEGA_Limit (src/algorithms/dega_limit.py): the standard DEGA with a
 * counter `l` of exploitation steps since the last improvement. While the
 * fitnesses differ and `l <= u`, a uniform crossover `y` is evaluated and,
 * when it beats the worse individual, up to `u` first-improvement crossover
 * attempts move the worse individual towards `y`; otherwise a mutation with
 * three-way replacement is made, and it resets `l` when the offspring is kept.
 */
module DegaLimit {
  import opened Wrappers
  import opened Helper
  import opened Numeric
  import opened TwoPlusOne

  /** The population, the limit counter `l` and the evaluation counter. */
  datatype LimitState = LimitState(pop: Pop, l: int, cnt: int)

  /** The exploitation phase is entered when `f_1 != f_2 and l <= u`. */
  predicate Exploits(p: Pop, l: int, u: int) {
    p.f1 != p.f2 && l <= u
  }

  /**
   * Exploitation: `y` from the population as it was, `x_1` then made the worse
   * individual, `l` incremented; a `y` fitter than `x_1` starts the
   * refinement, whose success replaces `x_1` and resets `l`.
   */
  function ExploitPass(problem: seq<int> -> int, o: Oracle, n: nat, u: int, p: Pop, l: int, t: int): (q: LimitState)
    requires |p.x1| == n && |p.x2| == n
    ensures |q.pop.x1| == n && |q.pop.x2| == n
    ensures q.cnt >= t + 1
  {
    var y := BiasedCrossover(p.x1, p.x2, Mask(o, t, n));
    var w := Ordered(p);
    var fy := problem(y);
    if fy > w.f1 then
      var r := RefineFirst(problem, o, n, w.x1, w.f1, y, t + 1, u);
      if r.fx > w.f1 then LimitState(w.(x1 := r.x, f1 := r.fx), 0, r.cnt)
      else LimitState(w, l + 1, r.cnt)
    else LimitState(w, l + 1, t + 1)
  }

  /** Diversity: mutate the parent and keep the optimal pair of {other, parent, offspring}. */
  function DiversityPass(problem: seq<int> -> int, o: Oracle, n: nat, p: Pop, l: int, t: int): (q: LimitState)
    requires |p.x1| == n && |p.x2| == n
    ensures |q.pop.x1| == n && |q.pop.x2| == n
    ensures q.cnt == t + 1
  {
    var s := PickParent(p, o.parentCoin(t));
    var offspring := Mutate(s.x1, Mask(o, t, n));
    var r := SelectPopulationLimit(s.x2, s.x1, offspring, s.f2, s.f1, problem(offspring), l, o.choice(t));
    LimitState(Pop(r.pair.a, r.pair.b, r.pair.fa, r.pair.fb), r.newL, t + 1)
  }

  /** One pass of the loop body after the convergence check, at evaluation count `t`. */
  function Step(problem: seq<int> -> int, o: Oracle, n: nat, u: int, p: Pop, l: int, t: int): (q: LimitState)
    requires |p.x1| == n && |p.x2| == n
    ensures |q.pop.x1| == n && |q.pop.x2| == n
    ensures q.cnt >= t + 1
  {
    if Exploits(p, l, u) then ExploitPass(problem, o, n, u, p, l, t) else DiversityPass(problem, o, n, p, l, t)
  }

  /**
   * The pass at count `t` raises `ZeroDivisionError`: each refinement attempt
   * computes `1 / self.lamb`, and the first one is made when `y` beats the
   * worse individual and `int(u) >= 1`; diversity computes `self.chi / self.n`.
   */
  predicate DividesByZero(problem: seq<int> -> int, o: Oracle, n: nat, lamb: int, u: int, p: Pop, l: int, t: int)
    requires |p.x1| == n && |p.x2| == n
  {
    if Exploits(p, l, u) then
      lamb == 0 && u >= 1 && problem(BiasedCrossover(p.x1, p.x2, Mask(o, t, n))) > Ordered(p).f1
    else n == 0
  }

  /** The loop from population `p` with limit counter `l` at count `cnt`, or the exception a pass raises. */
  function RunFrom(problem: seq<int> -> int, o: Oracle, n: nat, lamb: int, u: int, optimum: int, maxEvals: int,
                   p: Pop, l: int, cnt: int): Result<(int, int), Exception>
    requires |p.x1| == n && |p.x2| == n
    decreases maxEvals - cnt
  {
    if cnt < maxEvals then
      if Best(p) >= optimum then Ok((Best(p), cnt))
      else if DividesByZero(problem, o, n, lamb, u, p, l, cnt) then Err(ZeroDivisionError)
      else
        var s := Step(problem, o, n, u, p, l, cnt);
        RunFrom(problem, o, n, lamb, u, optimum, maxEvals, s.pop, s.l, s.cnt)
    else Ok((Best(p), cnt))
  }

  /** Both individuals stay 0/1 vectors of length `n` carrying their own fitness. */
  lemma StepConsistent(problem: seq<int> -> int, o: Oracle, n: nat, u: int, p: Pop, l: int, t: int)
    requires Consistent(p, n, problem)
    ensures Consistent(Step(problem, o, n, u, p, l, t).pop, n, problem)
  {
    if Exploits(p, l, u) {
      ExploitPassConsistent(problem, o, n, u, p, l, t);
    } else {
      DiversityPassConsistent(problem, o, n, p, l, t);
    }
  }

  lemma ExploitPassConsistent(problem: seq<int> -> int, o: Oracle, n: nat, u: int, p: Pop, l: int, t: int)
    requires Consistent(p, n, problem)
    ensures Consistent(ExploitPass(problem, o, n, u, p, l, t).pop, n, problem)
  {
    var y := BiasedCrossover(p.x1, p.x2, Mask(o, t, n));
    assert IsBits(y);
    assert Consistent(Ordered(p), n, problem);
  }

  lemma DiversityPassConsistent(problem: seq<int> -> int, o: Oracle, n: nat, p: Pop, l: int, t: int)
    requires Consistent(p, n, problem)
    ensures Consistent(DiversityPass(problem, o, n, p, l, t).pop, n, problem)
  {
    var s := PickParent(p, o.parentCoin(t));
    assert Consistent(s, n, problem);
    var offspring := Mutate(s.x1, Mask(o, t, n));
    assert IsBits(offspring);
  }

  /**
   * An exploitation step either strictly improves the worse individual and
   * resets `l` to 0, or leaves the (reordered) population as it was and
   * increments `l`; it costs one evaluation for `y` plus at most `max(u, 0)`
   * refinement attempts.
   */
  lemma ExploitPassOutcome(problem: seq<int> -> int, o: Oracle, n: nat, u: int, p: Pop, l: int, t: int)
    requires |p.x1| == n && |p.x2| == n
    ensures var w := Ordered(p);
            var q := ExploitPass(problem, o, n, u, p, l, t);
            && q.pop.x2 == w.x2 && q.pop.f2 == w.f2
            && ((q.l == 0 && q.pop.f1 > w.f1) || (q.l == l + 1 && q.pop == w))
            && t + 1 <= q.cnt <= t + 1 + Max(u, 0)
  {
  }

  /**
   * A reset of `l` in the exploitation step comes with the refinement attempt
   * made last, which beat the worse individual: `y` itself is never adopted.
   */
  lemma ExploitPassAdoptsAttempt(problem: seq<int> -> int, o: Oracle, n: nat, u: int, p: Pop, l: int, t: int)
    requires |p.x1| == n && |p.x2| == n
    requires l >= 0
    ensures var y := BiasedCrossover(p.x1, p.x2, Mask(o, t, n));
            var w := Ordered(p);
            var q := ExploitPass(problem, o, n, u, p, l, t);
            q.l == 0 ==>
              && q.cnt > t + 1 && q.pop.x1 == LastAttempt(o, n, w.x1, y, q.cnt)
              && q.pop.f1 == problem(q.pop.x1) && q.pop.f1 > w.f1
  {
    var y := BiasedCrossover(p.x1, p.x2, Mask(o, t, n));
    var w := Ordered(p);
    if problem(y) > w.f1 {
      RefineFirstOutcome(problem, o, n, w, y, t + 1, u);
    }
  }

  /**
   * Once `l` exceeds `u`, or the fitnesses are equal, the step is a mutation:
   * `u` bounds the number of exploitation steps in a row that do not improve.
   */
  lemma LimitForcesMutation(problem: seq<int> -> int, o: Oracle, n: nat, u: int, p: Pop, l: int, t: int)
    requires |p.x1| == n && |p.x2| == n
    requires l > u || p.f1 == p.f2
    ensures Step(problem, o, n, u, p, l, t) == DiversityPass(problem, o, n, p, l, t)
  {
  }

  /** The diversity step resets `l` whenever the population changes and otherwise keeps it. */
  lemma DiversityPassLimit(problem: seq<int> -> int, o: Oracle, n: nat, p: Pop, l: int, t: int)
    requires |p.x1| == n && |p.x2| == n
    ensures var s := PickParent(p, o.parentCoin(t));
            var q := DiversityPass(problem, o, n, p, l, t);
            && (q.l == 0 || q.l == l)
            && (q.pop != Pop(s.x2, s.x1, s.f2, s.f1) ==> q.l == 0)
  {
  }

  /**
   * The diversity step keeps an optimal pair of {other, parent, offspring} in
   * the order it was built, and resets `l` exactly when that pair holds the
   * offspring.
   */
  lemma DiversityPassOptimal(problem: seq<int> -> int, o: Oracle, n: nat, p: Pop, l: int, t: int)
    requires |p.x1| == n && |p.x2| == n
    ensures var s := PickParent(p, o.parentCoin(t));
            var offspring := Mutate(s.x1, Mask(o, t, n));
            var cs := Pairs(s.x2, s.x1, offspring, s.f2, s.f1, problem(offspring));
            var q := DiversityPass(problem, o, n, p, l, t);
            exists c :: c in cs && Optimal(c, cs) && Pair(q.pop.x1, q.pop.x2, q.pop.f1, q.pop.f2) == c.pair
                        && q.l == (if c.usesOffspring then 0 else l)
  {
    var s := PickParent(p, o.parentCoin(t));
    var offspring := Mutate(s.x1, Mask(o, t, n));
    SelectPopulationLimitOptimal(s.x2, s.x1, offspring, s.f2, s.f1, problem(offspring), l, o.choice(t));
  }

  /** Starting from 0, the counter stays within `0 .. max(u + 1, 0)`. */
  lemma StepLimitBounded(problem: seq<int> -> int, o: Oracle, n: nat, u: int, p: Pop, l: int, t: int)
    requires |p.x1| == n && |p.x2| == n
    requires 0 <= l <= Max(u + 1, 0)
    ensures var q := Step(problem, o, n, u, p, l, t);
            0 <= q.l <= Max(u + 1, 0)
  {
    if Exploits(p, l, u) {
      ExploitPassOutcome(problem, o, n, u, p, l, t);
    } else {
      DiversityPassLimit(problem, o, n, p, l, t);
    }
  }

  /** `max(f_1, f_2)` never decreases. */
  lemma StepNeverWorsens(problem: seq<int> -> int, o: Oracle, n: nat, u: int, p: Pop, l: int, t: int)
    requires |p.x1| == n && |p.x2| == n
    ensures Best(Step(problem, o, n, u, p, l, t).pop) >= Best(p)
  {
    if Exploits(p, l, u) {
      ExploitPassOutcome(problem, o, n, u, p, l, t);
    } else {
      DiversityPassNeverWorsens(problem, o, n, p, l, t);
    }
  }

  lemma DiversityPassNeverWorsens(problem: seq<int> -> int, o: Oracle, n: nat, p: Pop, l: int, t: int)
    requires |p.x1| == n && |p.x2| == n
    ensures Best(DiversityPass(problem, o, n, p, l, t).pop) >= Best(p)
  {
    var s := PickParent(p, o.parentCoin(t));
    var offspring := Mutate(s.x1, Mask(o, t, n));
    SelectPopulationLimitKeepsBest(s.x2, s.x1, offspring, s.f2, s.f1, problem(offspring), l, o.choice(t));
  }

  /**
   * What a run returns: a best fitness no lower than the start's; a count
   * below the budget only on convergence; without convergence a count of at
   * least `maxEvals` and at most one full refinement beyond it. It fails
   * only when `n` or `lamb` is 0.
   */
  lemma {:induction false} RunFromOutcome(problem: seq<int> -> int, o: Oracle, n: nat, lamb: int, u: int,
                                          optimum: int, maxEvals: int, p: Pop, l: int, cnt: int)
    requires |p.x1| == n && |p.x2| == n
    ensures var r := RunFrom(problem, o, n, lamb, u, optimum, maxEvals, p, l, cnt);
            && (r.Ok? ==>
                  && r.value.0 >= Best(p)
                  && cnt <= r.value.1 <= Max(cnt, maxEvals + Max(u, 0))
                  && (r.value.1 < maxEvals ==> r.value.0 >= optimum)
                  && (r.value.0 < optimum ==> r.value.1 >= maxEvals))
            && (r.Err? ==> r.error == ZeroDivisionError && (n == 0 || lamb == 0))
    decreases maxEvals - cnt
  {
    if cnt < maxEvals && Best(p) < optimum && !DividesByZero(problem, o, n, lamb, u, p, l, cnt) {
      var s := Step(problem, o, n, u, p, l, cnt);
      StepNeverWorsens(problem, o, n, u, p, l, cnt);
      if Exploits(p, l, u) {
        ExploitPassOutcome(problem, o, n, u, p, l, cnt);
      }
      RunFromOutcome(problem, o, n, lamb, u, optimum, maxEvals, s.pop, s.l, s.cnt);
    }
  }

  /**
   * With `n == 0` both individuals are empty and equally fit, so the first
   * pass is a diversity pass: the run fails exactly when it makes a pass.
   */
  lemma EmptyRunFails(problem: seq<int> -> int, o: Oracle, lamb: int, u: int, optimum: int, maxEvals: int,
                      p: Pop, l: int, cnt: int)
    requires Consistent(p, 0, problem)
    ensures RunFrom(problem, o, 0, lamb, u, optimum, maxEvals, p, l, cnt).Err? <==> cnt < maxEvals && Best(p) < optimum
  {
    assert p.x1 == p.x2;
  }

  /**
   * The exploitation phase of the loop body, run on the loop's variables;
   * `failed` reports the `ZeroDivisionError` of its first refinement attempt.
   */
  method ExploitPhase(problem: seq<int> -> int, o: Oracle, n: nat, lamb: int, u: int,
                      x1: seq<int>, x2: seq<int>, f1: int, f2: int, l: int, cnt: int)
    returns (failed: bool, x1': seq<int>, x2': seq<int>, f1': int, f2': int, l': int, cnt': int)
    requires |x1| == n && |x2| == n
    requires Exploits(Pop(x1, x2, f1, f2), l, u)
    ensures failed == DividesByZero(problem, o, n, lamb, u, Pop(x1, x2, f1, f2), l, cnt)
    ensures !failed ==>
              LimitState(Pop(x1', x2', f1', f2'), l', cnt') == ExploitPass(problem, o, n, u, Pop(x1, x2, f1, f2), l, cnt)
  {
    failed := false;
    var y := BiasedCrossover(x1, x2, Mask(o, cnt, n));
    x1', x2', f1', f2' := x1, x2, f1, f2;
    if f1' > f2' {
      x1', x2' := x2', x1';
      f1', f2' := f2', f1';
    }
    var fy := problem(y);
    cnt' := cnt + 1;
    l' := l + 1;
    if fy > f1' {
      if lamb == 0 && u >= 1 {
        failed := true;
        return;
      }
      var x, fx, c := RefineFirstLoop(problem, o, n, x1', f1', y, cnt', u);
      // the attempt that improves on f_1 resets the limit counter
      if fx > f1' {
        l' := 0;
      }
      x1', f1', cnt' := x, fx, c;
    }
  }

  /** The diversity phase of the loop body, run on the loop's variables. */
  method DiversityPhase(problem: seq<int> -> int, o: Oracle, n: nat,
                        x1: seq<int>, x2: seq<int>, f1: int, f2: int, l: int, cnt: int)
    returns (x1': seq<int>, x2': seq<int>, f1': int, f2': int, l': int, cnt': int)
    requires |x1| == n && |x2| == n
    ensures LimitState(Pop(x1', x2', f1', f2'), l', cnt') == DiversityPass(problem, o, n, Pop(x1, x2, f1, f2), l, cnt)
  {
    var parent, other, fParent, fOther := x1, x2, f1, f2;
    if !o.parentCoin(cnt) {
      parent, other, fParent, fOther := x2, x1, f2, f1;
    }
    var offspring := Mutate(parent, Mask(o, cnt, n));
    var fOff := problem(offspring);
    var choice := o.choice(cnt);
    cnt' := cnt + 1;
    var r := SelectPopulationLimit(other, parent, offspring, fOther, fParent, fOff, l, choice);
    x1', x2', f1', f2', l' := r.pair.a, r.pair.b, r.pair.fa, r.pair.fb, r.newL;
  }

  /** An instance of DEGA_Limit with its crossover parameter `lamb` and limit `u`. */
  class DegaLimit {
    const n: nat
    const lamb: int
    const chi: real
    const u: int

    /** `DEGA_Limit.__init__(n, lamb, u=None)`: `u` defaults to `int(lamb * log(n))`, with `log(n)` given as `logN`. */
    constructor (n: nat, lamb: int, u: Option<int>, logN: real)
      ensures this.n == n && this.lamb == lamb && chi == 1.0
      ensures this.u == (if u.None? then Trunc(lamb as real * logN) else u.value)
    {
      this.n := n;
      this.lamb := lamb;
      chi := 1.0;
      this.u := if u.None? then Trunc(lamb as real * logN) else u.value;
    }

    /** `DEGA_Limit.run(problem, optimum, max_evals)`; the refinement bias `1/lamb` labels its masks. */
    method Run(problem: seq<int> -> int, o: Oracle, optimum: int, maxEvals: int)
      returns (r: Result<(int, int), Exception>)
      ensures r == RunFrom(problem, o, n, lamb, u, optimum, maxEvals, InitialPop(problem, o, n), 0, 2)
      ensures r.Ok? ==> r.value.0 >= Best(InitialPop(problem, o, n))
      ensures r.Ok? ==> 2 <= r.value.1 <= Max(2, maxEvals + Max(u, 0))
      ensures r.Ok? && r.value.1 < maxEvals ==> r.value.0 >= optimum
      ensures r.Ok? && r.value.0 < optimum ==> r.value.1 >= maxEvals
      ensures r.Err? ==> r.error == ZeroDivisionError && (n == 0 || lamb == 0)
    {
      var x1 := InitialVector(o, n);
      var x2 := Complement(x1);
      var f1 := problem(x1);
      var f2 := problem(x2);
      var cnt := 2;
      var l := 0;
      ghost var start := InitialPop(problem, o, n);
      RunFromOutcome(problem, o, n, lamb, u, optimum, maxEvals, start, 0, 2);
      while cnt < maxEvals
        invariant |x1| == n && |x2| == n
        invariant RunFrom(problem, o, n, lamb, u, optimum, maxEvals, Pop(x1, x2, f1, f2), l, cnt)
                  == RunFrom(problem, o, n, lamb, u, optimum, maxEvals, start, 0, 2)
        decreases maxEvals - cnt
      {
        if Max(f1, f2) >= optimum {
          return Ok((Max(f1, f2), cnt));
        }
        ghost var before := Pop(x1, x2, f1, f2);
        ghost var lBefore := l;
        ghost var t := cnt;
        if f1 != f2 && l <= u {
          // exploitation phase
          var failed;
          failed, x1, x2, f1, f2, l, cnt := ExploitPhase(problem, o, n, lamb, u, x1, x2, f1, f2, l, cnt);
          if failed {
            return Err(ZeroDivisionError);
          }
        } else {
          // diversity phase
          if n == 0 {
            return Err(ZeroDivisionError);
          }
          x1, x2, f1, f2, l, cnt := DiversityPhase(problem, o, n, x1, x2, f1, f2, l, cnt);
        }
        assert LimitState(Pop(x1, x2, f1, f2), l, cnt) == Step(problem, o, n, u, before, lBefore, t);
      }
      r := Ok((Max(f1, f2), cnt));
    }
  }
}
