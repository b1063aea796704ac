/**
 * The standard (2+1)-DEGA (src/algorithms/dega.py): exploitation by biased
 * crossover of the worse individual towards the better one while the two
 * fitnesses differ, and a mutation with three-way replacement when they are
 * equal.
 */
module Dega {
  import opened Wrappers
  import opened Helper
  import opened TwoPlusOne

  /**
   * One pass of the loop body after the convergence check, starting at
   * evaluation count `t`; it evaluates exactly one offspring.
   */
  function Step(problem: seq<int> -> int, o: Oracle, n: nat, p: Pop, t: int): (q: Pop)
    requires |p.x1| == n && |p.x2| == n
    ensures |q.x1| == n && |q.x2| == n
  {
    if p.f1 != p.f2 then Exploit(problem, o, n, p, t) else Diversify(problem, o, n, p, t)
  }

  /** Exploitation: `x_1` is made the worse individual and replaced by a fitter crossover offspring. */
  function Exploit(problem: seq<int> -> int, o: Oracle, n: nat, p: Pop, t: int): (q: Pop)
    requires |p.x1| == n && |p.x2| == n
    ensures |q.x1| == n && |q.x2| == n
  {
    var w := Ordered(p);
    var off := BiasedCrossover(w.x1, w.x2, Mask(o, t, n));
    var fOff := problem(off);
    if fOff > w.f1 then w.(x1 := off, f1 := fOff) else w
  }

  /** Diversity: `s.x1` is the parent, `s.x2` the other individual; three-way replacement. */
  function Diversify(problem: seq<int> -> int, o: Oracle, n: nat, p: Pop, t: int): (q: Pop)
    requires |p.x1| == n && |p.x2| == n
    ensures |q.x1| == n && |q.x2| == n
  {
    var s := PickParent(p, o.parentCoin(t));
    var offspring := Mutate(s.x1, Mask(o, t, n));
    var r := SelectPopulation(s.x2, s.x1, offspring, s.f2, s.f1, problem(offspring), o.choice(t));
    Pop(r.a, r.b, r.fa, r.fb)
  }

  /**
   * The pass from `p` raises `ZeroDivisionError`: exploitation computes
   * `1 / self.lamb`, diversity computes `self.chi / self.n`.
   */
  predicate DividesByZero(n: nat, lamb: int, p: Pop) {
    if p.f1 != p.f2 then lamb == 0 else n == 0
  }

  /**
   * The loop from population `p` at evaluation count `cnt`: stop with
   * `(max(f_1, f_2), cnt)` on convergence or when the budget is spent, or
   * with the exception a pass raises.
   */
  function RunFrom(problem: seq<int> -> int, o: Oracle, n: nat, lamb: int, optimum: int, maxEvals: int,
                   p: Pop, cnt: int): Result<(int, int), Exception>
    requires |p.x1| == n && |p.x2| == n
    decreases maxEvals - cnt
  {
    if cnt < maxEvals then
      if Best(p) >= optimum then Ok((Best(p), cnt))
      else if DividesByZero(n, lamb, p) then Err(ZeroDivisionError)
      else RunFrom(problem, o, n, lamb, optimum, maxEvals, Step(problem, o, n, p, cnt), cnt + 1)
    else Ok((Best(p), cnt))
  }

  /** Every candidate of the run keeps length `n`, 0/1 entries and its own fitness. */
  lemma StepConsistent(problem: seq<int> -> int, o: Oracle, n: nat, p: Pop, t: int)
    requires Consistent(p, n, problem)
    ensures Consistent(Step(problem, o, n, p, t), n, problem)
  {
    if p.f1 != p.f2 {
      ExploitConsistent(problem, o, n, p, t);
    } else {
      DiversifyConsistent(problem, o, n, p, t);
    }
  }

  lemma ExploitConsistent(problem: seq<int> -> int, o: Oracle, n: nat, p: Pop, t: int)
    requires Consistent(p, n, problem)
    ensures Consistent(Exploit(problem, o, n, p, t), n, problem)
  {
    var w := Ordered(p);
    assert Consistent(w, n, problem);
  }

  lemma DiversifyConsistent(problem: seq<int> -> int, o: Oracle, n: nat, p: Pop, t: int)
    requires Consistent(p, n, problem)
    ensures Consistent(Diversify(problem, o, n, p, t), n, problem)
  {
    var s := PickParent(p, o.parentCoin(t));
    assert Consistent(s, n, problem);
    var offspring := Mutate(s.x1, Mask(o, t, n));
    assert IsBits(offspring);
    var r := SelectPopulation(s.x2, s.x1, offspring, s.f2, s.f1, problem(offspring), o.choice(t));
    assert FromInputs(r.a, r.fa, s.x2, s.x1, offspring, s.f2, s.f1, problem(offspring));
    assert FromInputs(r.b, r.fb, s.x2, s.x1, offspring, s.f2, s.f1, problem(offspring));
  }

  /**
   * Exploitation: after the swap `f_1 <= f_2`; the better individual is kept
   * as it is, and the worse one is replaced only by a strictly fitter
   * crossover offspring.
   */
  lemma ExploitationStep(problem: seq<int> -> int, o: Oracle, n: nat, p: Pop, t: int)
    requires |p.x1| == n && |p.x2| == n
    requires p.f1 != p.f2
    ensures var w := Ordered(p);
            var q := Step(problem, o, n, p, t);
            var off := BiasedCrossover(w.x1, w.x2, Mask(o, t, n));
            && w.f1 < w.f2
            && q.x2 == w.x2 && q.f2 == w.f2
            && (if problem(off) > w.f1 then q.x1 == off && q.f1 == problem(off) else q == w)
  {
  }

  /** Diversity: the new population is an optimal pair of {other, parent, offspring}, better first. */
  lemma DiversityStep(problem: seq<int> -> int, o: Oracle, n: nat, p: Pop, t: int)
    requires |p.x1| == n && |p.x2| == n
    requires p.f1 == p.f2
    ensures var s := PickParent(p, o.parentCoin(t));
            var offspring := Mutate(s.x1, Mask(o, t, n));
            var cs := Pairs(s.x2, s.x1, offspring, s.f2, s.f1, problem(offspring));
            var q := Step(problem, o, n, p, t);
            q.f1 >= q.f2 && exists c :: c in cs && Optimal(c, cs) && Pair(q.x1, q.x2, q.f1, q.f2) == Oriented(c.pair)
  {
    var s := PickParent(p, o.parentCoin(t));
    var offspring := Mutate(s.x1, Mask(o, t, n));
    SelectPopulationOptimal(s.x2, s.x1, offspring, s.f2, s.f1, problem(offspring), o.choice(t));
  }

  /** `max(f_1, f_2)` never decreases, in both phases. */
  lemma StepNeverWorsens(problem: seq<int> -> int, o: Oracle, n: nat, p: Pop, t: int)
    requires |p.x1| == n && |p.x2| == n
    ensures Best(Step(problem, o, n, p, t)) >= Best(p)
  {
    if p.f1 == p.f2 {
      DiversifyNeverWorsens(problem, o, n, p, t);
    }
  }

  lemma DiversifyNeverWorsens(problem: seq<int> -> int, o: Oracle, n: nat, p: Pop, t: int)
    requires |p.x1| == n && |p.x2| == n
    ensures Best(Diversify(problem, o, n, p, t)) >= Best(p)
  {
    var s := PickParent(p, o.parentCoin(t));
    var offspring := Mutate(s.x1, Mask(o, t, n));
    SelectPopulationKeepsBest(s.x2, s.x1, offspring, s.f2, s.f1, problem(offspring), o.choice(t));
  }

  /**
   * What a run from `p` at count `cnt` returns: a best fitness no lower than
   * `p`'s; a count below the budget only on convergence; otherwise exactly
   * `max(cnt, maxEvals)`, since every pass costs one evaluation. It fails
   * only when `n` or `lamb` is 0.
   */
  lemma {:induction false} RunFromOutcome(problem: seq<int> -> int, o: Oracle, n: nat, lamb: int, optimum: int,
                                          maxEvals: int, p: Pop, cnt: int)
    requires |p.x1| == n && |p.x2| == n
    ensures var r := RunFrom(problem, o, n, lamb, optimum, maxEvals, p, cnt);
            && (r.Ok? ==>
                  && r.value.0 >= Best(p)
                  && cnt <= r.value.1 <= Max(cnt, maxEvals)
                  && (r.value.1 < maxEvals ==> r.value.0 >= optimum)
                  && (r.value.0 < optimum ==> r.value.1 == Max(cnt, maxEvals)))
            && (r.Err? ==> r.error == ZeroDivisionError && (n == 0 || lamb == 0))
    decreases maxEvals - cnt
  {
    if cnt < maxEvals && Best(p) < optimum && !DividesByZero(n, lamb, p) {
      var q := Step(problem, o, n, p, cnt);
      StepNeverWorsens(problem, o, n, p, cnt);
      RunFromOutcome(problem, o, n, lamb, optimum, maxEvals, q, cnt + 1);
      assert RunFrom(problem, o, n, lamb, optimum, maxEvals, p, cnt)
          == RunFrom(problem, o, n, lamb, optimum, maxEvals, q, cnt + 1);
    }
  }

  /**
   * With `n == 0` both individuals are empty and equally fit, so the first
   * pass is a diversity pass: the run fails exactly when it makes a pass.
   */
  lemma EmptyRunFails(problem: seq<int> -> int, o: Oracle, lamb: int, optimum: int, maxEvals: int,
                      p: Pop, cnt: int)
    requires Consistent(p, 0, problem)
    ensures RunFrom(problem, o, 0, lamb, optimum, maxEvals, p, cnt).Err? <==> cnt < maxEvals && Best(p) < optimum
  {
    assert p.x1 == p.x2;
  }

  /** An instance of the algorithm with its constructor parameters. */
  class Dega {
    const n: nat
    const lamb: int
    const chi: real

    /** `DEGA.__init__(lamb, n)`; the mutation rate factor `chi` is fixed at 1.0. */
    constructor (lamb: int, n: nat)
      ensures this.n == n && this.lamb == lamb && chi == 1.0
    {
      this.n := n;
      this.lamb := lamb;
      chi := 1.0;
    }

    /**
     * `DEGA.run(problem, optimum, max_evals)`: the crossover bias `1/lamb`
     * and the mutation rate `chi/n` label the masks the oracle supplies.
     */
    method Run(problem: seq<int> -> int, o: Oracle, optimum: int, maxEvals: int)
      returns (r: Result<(int, int), Exception>)
      ensures r == RunFrom(problem, o, n, lamb, optimum, maxEvals, InitialPop(problem, o, n), 2)
      ensures r.Ok? ==> r.value.0 >= Best(InitialPop(problem, o, n))
      ensures r.Ok? ==> 2 <= r.value.1 <= Max(2, maxEvals)
      ensures r.Ok? && r.value.1 < maxEvals ==> r.value.0 >= optimum
      ensures r.Ok? && r.value.0 < optimum ==> r.value.1 == Max(2, maxEvals)
      ensures r.Err? ==> r.error == ZeroDivisionError && (n == 0 || lamb == 0)
    {
      var x1 := InitialVector(o, n);
      var x2 := Complement(x1);
      var f1 := problem(x1);
      var f2 := problem(x2);
      var cnt := 2;
      ghost var start := InitialPop(problem, o, n);
      RunFromOutcome(problem, o, n, lamb, optimum, maxEvals, start, 2);
      while cnt < maxEvals
        invariant |x1| == n && |x2| == n
        invariant RunFrom(problem, o, n, lamb, optimum, maxEvals, Pop(x1, x2, f1, f2), cnt)
                  == RunFrom(problem, o, n, lamb, optimum, maxEvals, start, 2)
        decreases maxEvals - cnt
      {
        if Max(f1, f2) >= optimum {
          return Ok((Max(f1, f2), cnt));
        }
        ghost var before := Pop(x1, x2, f1, f2);
        if f1 != f2 {
          // exploitation phase
          if f1 > f2 {
            x1, x2 := x2, x1;
            f1, f2 := f2, f1;
          }
          if lamb == 0 {
            return Err(ZeroDivisionError);
          }
          assert RunFrom(problem, o, n, lamb, optimum, maxEvals, before, cnt)
                 == RunFrom(problem, o, n, lamb, optimum, maxEvals, Step(problem, o, n, before, cnt), cnt + 1);
          var off := BiasedCrossover(x1, x2, Mask(o, cnt, n));
          var fOff := problem(off);
          cnt := cnt + 1;
          if fOff > f1 {
            x1 := off;
            f1 := fOff;
          }
          assert Pop(x1, x2, f1, f2) == Exploit(problem, o, n, before, cnt - 1);
        } else {
          // diversity phase
          if n == 0 {
            return Err(ZeroDivisionError);
          }
          assert RunFrom(problem, o, n, lamb, optimum, maxEvals, before, cnt)
                 == RunFrom(problem, o, n, lamb, optimum, maxEvals, Step(problem, o, n, before, cnt), cnt + 1);
          var parent, other, fParent, fOther := x1, x2, f1, f2;
          if !o.parentCoin(cnt) {
            parent, other, fParent, fOther := x2, x1, f2, f1;
          }
          var offspring := Mutate(parent, Mask(o, cnt, n));
          var fOff := problem(offspring);
          var choice := o.choice(cnt);
          cnt := cnt + 1;
          var s := SelectPopulation(other, parent, offspring, fOther, fParent, fOff, choice);
          x1, x2, f1, f2 := s.a, s.b, s.fa, s.fb;
          assert Pop(x1, x2, f1, f2) == Diversify(problem, o, n, before, cnt - 1);
        }
      }
      r := Ok((Max(f1, f2), cnt));
    }
  }
}
