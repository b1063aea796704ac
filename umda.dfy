/**
 * The Univariate Marginal Distribution Algorithm (src/algorithms/umda.py):
 * each generation samples `lamb` individuals from a vector of bit
 * probabilities, keeps the `mu` fittest, sets every probability to the
 * frequency of ones among them, clips it to `[1/n, 1 - 1/n]`, and stops
 * when the fittest individual of the generation reaches the optimum.
 */
module Umda {
  import opened Wrappers
  import opened Helper

  /** The initial `best_fitness = -1e10`, returned when no generation runs. */
  const Sentinel: int := -10000000000

  /**
   * The uniform random numbers of the sampling step: `draw(t, k, i)` is
   * `np.random.rand(n)[i]` for individual `k` of the generation that starts
   * at evaluation count `t`.
   */
  type Draws = (int, nat, nat) -> real

  /** One sampled individual: bit `i` is 1 exactly when its draw falls below `probs[i]`. */
  function Sample(probs: seq<real>, draw: Draws, t: int, k: nat): (x: seq<int>)
    ensures |x| == |probs| && IsBits(x)
    ensures forall i :: 0 <= i < |probs| ==> (x[i] == 1 <==> draw(t, k, i) < probs[i])
  {
    seq(|probs|, i requires 0 <= i < |probs| => if draw(t, k, i) < probs[i] then 1 else 0)
  }

  /** The `lamb` individuals of one generation (none when `lamb <= 0`). */
  function Population(probs: seq<real>, draw: Draws, t: int, lamb: int): (pop: seq<seq<int>>)
    ensures |pop| == Max(lamb, 0)
    ensures forall k :: 0 <= k < |pop| ==> pop[k] == Sample(probs, draw, t, k)
  {
    seq(Max(lamb, 0), k requires 0 <= k => Sample(probs, draw, t, k))
  }

  /** `[problem(individual) for individual in population]`. */
  function Fitness(problem: seq<int> -> int, pop: seq<seq<int>>): (fv: seq<int>)
    ensures |fv| == |pop| && forall k :: 0 <= k < |pop| ==> fv[k] == problem(pop[k])
  {
    seq(|pop|, k requires 0 <= k < |pop| => problem(pop[k]))
  }

  // ---------------------------------------------------------------- argsort

  /** Every entry of `s` indexes `fv`. */
  predicate Indexes(fv: seq<int>, s: seq<nat>) {
    forall a :: 0 <= a < |s| ==> s[a] < |fv|
  }

  /** The indices in `s` are in ascending order of fitness. */
  predicate SortedBy(fv: seq<int>, s: seq<nat>)
    requires Indexes(fv, s)
  {
    forall a, b :: 0 <= a < b < |s| ==> fv[s[a]] <= fv[s[b]]
  }

  /** Insert index `j` in front of the first index of greater fitness. */
  function Insert(fv: seq<int>, j: nat, s: seq<nat>): (r: seq<nat>)
    requires j < |fv| && Indexes(fv, s)
    ensures |r| == |s| + 1
    ensures forall x :: x in r <==> x == j || x in s
    ensures Indexes(fv, r)
  {
    if s == [] then [j]
    else if fv[j] < fv[s[0]] then [j] + s
    else [s[0]] + Insert(fv, j, s[1..])
  }

  /** Inserting into a sorted list keeps it sorted. */
  lemma {:induction false} InsertSorted(fv: seq<int>, j: nat, s: seq<nat>)
    requires j < |fv| && Indexes(fv, s) && SortedBy(fv, s)
    ensures SortedBy(fv, Insert(fv, j, s))
  {
    if s != [] {
      if fv[j] < fv[s[0]] {
        assert forall a :: 0 <= a < |s| ==> fv[s[0]] <= fv[s[a]];
      } else {
        var rest := Insert(fv, j, s[1..]);
        assert s == [s[0]] + s[1..];
        InsertSorted(fv, j, s[1..]);
        HeadBelowRest(fv, j, s, rest);
      }
    }
  }

  lemma HeadBelowRest(fv: seq<int>, j: nat, s: seq<nat>, rest: seq<nat>)
    requires j < |fv| && Indexes(fv, s) && SortedBy(fv, s) && |s| > 0 && fv[s[0]] <= fv[j]
    requires forall x :: x in rest ==> x == j || x in s[1..]
    ensures forall x :: x in rest ==> x < |fv| && fv[s[0]] <= fv[x]
  {
    forall x | x in rest ensures x < |fv| && fv[s[0]] <= fv[x] {
      if x != j {
        var b :| 0 <= b < |s[1..]| && s[1..][b] == x;
        assert s[b + 1] == x;
      }
    }
  }

  /**
   * `np.argsort(fitness_values)` over the first `k` fitnesses: a permutation
   * of `0 .. k - 1` (`k` entries, each below `k`, each index present);
   * `ArgSortSorted` shows it is in ascending order of fitness.
   */
  function ArgSort(fv: seq<int>, k: nat): (order: seq<nat>)
    requires k <= |fv|
    ensures |order| == k
    ensures Indexes(fv, order)
    ensures forall a :: 0 <= a < k ==> order[a] < k
    ensures forall j :: 0 <= j < k ==> j in order
  {
    if k == 0 then []
    else
      var rest := ArgSort(fv, k - 1);
      var order := Insert(fv, k - 1, rest);
      assert forall a :: 0 <= a < k ==> order[a] in order;
      order
  }

  /** The argsort lists the indices in ascending order of fitness (equal fitnesses in index order). */
  lemma {:induction false} ArgSortSorted(fv: seq<int>, k: nat)
    requires k <= |fv|
    ensures SortedBy(fv, ArgSort(fv, k))
  {
    if k > 0 {
      ArgSortSorted(fv, k - 1);
      InsertSorted(fv, k - 1, ArgSort(fv, k - 1));
    }
  }

  /** The start of the slice `a[i:]` of a list of length `len`, as Python computes it. */
  function SliceFrom(i: int, len: nat): (s: nat)
    ensures s <= len
  {
    if i < 0 then Max(len + i, 0) else Min(i, len)
  }

  /** `np.argsort(fitness_values)[-mu:]`. */
  function Elites(fv: seq<int>, mu: int): (e: seq<nat>)
    ensures Indexes(fv, e)
  {
    var order := ArgSort(fv, |fv|);
    order[SliceFrom(-mu, |order|)..]
  }

  /**
   * The number of elites: `min(mu, lamb)` for a positive `mu`, but the whole
   * population for `mu == 0` (since `-0 == 0`), and `lamb + mu` clamped at 0
   * for a negative `mu`.
   */
  lemma EliteCount(fv: seq<int>, mu: int)
    ensures |Elites(fv, mu)| == if mu > 0 then Min(mu, |fv|) else if mu == 0 then |fv| else Max(|fv| + mu, 0)
  {
  }

  /** The elites are the fittest: no index outside the elites is fitter than one inside. */
  lemma ElitesAreFittest(fv: seq<int>, mu: int, j: nat, e: nat)
    requires j < |fv| && j !in Elites(fv, mu) && e in Elites(fv, mu)
    ensures fv[j] <= fv[e]
  {
    var order := ArgSort(fv, |fv|);
    ArgSortSorted(fv, |fv|);
    var s := SliceFrom(-mu, |order|);
    assert j in order;
    var a :| 0 <= a < |order| && order[a] == j;
    var b :| s <= b < |order| && order[b] == e;
  }

  /** The last elite is the fittest individual of the generation. */
  lemma LastEliteIsFittest(fv: seq<int>, mu: int)
    requires |Elites(fv, mu)| > 0
    ensures var e := Elites(fv, mu);
            && (forall k :: 0 <= k < |fv| ==> fv[k] <= fv[e[|e| - 1]])
  {
    var order := ArgSort(fv, |fv|);
    ArgSortSorted(fv, |fv|);
    var e := Elites(fv, mu);
    forall k | 0 <= k < |fv| ensures fv[k] <= fv[e[|e| - 1]] {
      assert k in order;
      var a :| 0 <= a < |order| && order[a] == k;
      assert e[|e| - 1] == order[|order| - 1];
    }
  }

  // ------------------------------------------------------ distribution update

  /** How many of the elites have a one at position `i`. */
  function Ones(pop: seq<seq<int>>, elites: seq<nat>, i: nat): (c: nat)
    requires forall a :: 0 <= a < |elites| ==> elites[a] < |pop| && i < |pop[elites[a]]| && IsBits(pop[elites[a]])
    ensures c <= |elites|
  {
    if elites == [] then 0
    else (if pop[elites[0]][i] == 1 then 1 else 0) + Ones(pop, elites[1..], i)
  }

  /** `np.mean(elites, axis=0)`: the frequency of ones per position. */
  function Mean(pop: seq<seq<int>>, elites: seq<nat>, n: nat): (m: seq<real>)
    requires |elites| > 0
    requires forall a :: 0 <= a < |elites| ==> elites[a] < |pop| && |pop[elites[a]]| == n && IsBits(pop[elites[a]])
    ensures |m| == n
    ensures forall i :: 0 <= i < n ==> 0.0 <= m[i] <= 1.0
  {
    seq(n, i requires 0 <= i < n => Ones(pop, elites, i) as real / |elites| as real)
  }

  /** The count is `|elites|` exactly when every elite has a one at `i`, and 0 exactly when none has. */
  lemma {:induction false} OnesExtremes(pop: seq<seq<int>>, elites: seq<nat>, i: nat)
    requires forall a :: 0 <= a < |elites| ==> elites[a] < |pop| && i < |pop[elites[a]]| && IsBits(pop[elites[a]])
    ensures Ones(pop, elites, i) == |elites| <==> forall a :: 0 <= a < |elites| ==> pop[elites[a]][i] == 1
    ensures Ones(pop, elites, i) == 0 <==> forall a :: 0 <= a < |elites| ==> pop[elites[a]][i] == 0
  {
    if elites != [] {
      OnesExtremes(pop, elites[1..], i);
      assert forall a :: 0 < a < |elites| ==> elites[1..][a - 1] == elites[a];
    }
  }

  /** A frequency is 1 exactly when the elites agree on a one there, and 0 exactly when they agree on a zero. */
  lemma MeanUnanimous(pop: seq<seq<int>>, elites: seq<nat>, n: nat, i: nat)
    requires |elites| > 0 && i < n
    requires forall a :: 0 <= a < |elites| ==> elites[a] < |pop| && |pop[elites[a]]| == n && IsBits(pop[elites[a]])
    ensures Mean(pop, elites, n)[i] == 1.0 <==> forall a :: 0 <= a < |elites| ==> pop[elites[a]][i] == 1
    ensures Mean(pop, elites, n)[i] == 0.0 <==> forall a :: 0 <= a < |elites| ==> pop[elites[a]][i] == 0
  {
    OnesExtremes(pop, elites, i);
    var k := Ones(pop, elites, i) as real;
    var m := |elites| as real;
    assert Mean(pop, elites, n)[i] == k / m;
    assert (k / m) * m == k;
  }

  function RMax(a: real, b: real): real { if a >= b then a else b }

  function RMin(a: real, b: real): real { if a <= b then a else b }

  /** `np.clip(v, 1/n, 1 - 1/n)`, which is `min(max(v, 1/n), 1 - 1/n)`. */
  function Clip(v: seq<real>, n: nat): (r: seq<real>)
    requires n > 0
    ensures |r| == |v|
  {
    seq(|v|, i requires 0 <= i < |v| => RMin(RMax(v[i], 1.0 / n as real), 1.0 - 1.0 / n as real))
  }

  /** For `n >= 2` every clipped probability lies in `[1/n, 1 - 1/n]`, and values inside are kept. */
  lemma ClipBounds(v: seq<real>, n: nat)
    requires n >= 2
    ensures forall i :: 0 <= i < |v| ==> 1.0 / n as real <= Clip(v, n)[i] <= 1.0 - 1.0 / n as real
    ensures forall i :: 0 <= i < |v| && 1.0 / n as real <= v[i] <= 1.0 - 1.0 / n as real ==> Clip(v, n)[i] == v[i]
  {
    var lo := 1.0 / n as real;
    assert lo * n as real == 1.0;
    assert lo <= 0.5;
  }

  /** For `n == 1` the bounds cross (`1 > 0`) and the clip sends every probability to 0. */
  lemma ClipOfLengthOne(v: seq<real>)
    ensures forall i :: 0 <= i < |v| ==> Clip(v, 1)[i] == 0.0
  {
  }

  // ------------------------------------------------------------ generations

  /** What one generation yields: the new probabilities and its best fitness. */
  datatype Generation = Generation(probs: seq<real>, best: int)

  /**
   * One generation from probabilities `probs` at evaluation count `t`:
   * `1 / n` fails for `n == 0`, and `elite_indices[-1]` fails without elites.
   */
  function NextGeneration(problem: seq<int> -> int, draw: Draws, n: nat, lamb: int, mu: int,
                          probs: seq<real>, t: int): (r: Result<Generation, Exception>)
    ensures r.Ok? ==> |r.value.probs| == |probs| && lamb >= 1
    ensures r.Err? ==> (r.error == ZeroDivisionError <==> n == 0)
  {
    var pop := Population(probs, draw, t, lamb);
    var fv := Fitness(problem, pop);
    var elites := Elites(fv, mu);
    if n == 0 then Err(ZeroDivisionError)
    else if |elites| == 0 then Err(IndexError)
    else Ok(Generation(Clip(Mean(pop, elites, |probs|), n), fv[elites[|elites| - 1]]))
  }

  /** The best fitness of a generation is the largest fitness sampled in it. */
  lemma GenerationBestIsMax(problem: seq<int> -> int, draw: Draws, n: nat, lamb: int, mu: int,
                            probs: seq<real>, t: int)
    requires NextGeneration(problem, draw, n, lamb, mu, probs, t).Ok?
    ensures var g := NextGeneration(problem, draw, n, lamb, mu, probs, t).value;
            var fv := Fitness(problem, Population(probs, draw, t, lamb));
            && (forall k :: 0 <= k < |fv| ==> fv[k] <= g.best)
            && (exists k :: 0 <= k < |fv| && fv[k] == g.best)
  {
    var fv := Fitness(problem, Population(probs, draw, t, lamb));
    var e := Elites(fv, mu);
    LastEliteIsFittest(fv, mu);
    assert 0 <= e[|e| - 1] < |fv|;
  }

  /** A generation fails exactly when `n == 0` or when there are no elites. */
  lemma GenerationFails(problem: seq<int> -> int, draw: Draws, n: nat, lamb: int, mu: int,
                        probs: seq<real>, t: int)
    ensures NextGeneration(problem, draw, n, lamb, mu, probs, t).Err?
            <==> n == 0 || lamb <= 0 || (mu < 0 && mu <= -lamb)
  {
    var fv := Fitness(problem, Population(probs, draw, t, lamb));
    EliteCount(fv, mu);
  }

  /** For `n >= 2` the new probabilities lie in `[1/n, 1 - 1/n]`. */
  lemma GenerationProbabilitiesClipped(problem: seq<int> -> int, draw: Draws, n: nat, lamb: int, mu: int,
                                       probs: seq<real>, t: int)
    requires n >= 2
    requires NextGeneration(problem, draw, n, lamb, mu, probs, t).Ok?
    ensures var q := NextGeneration(problem, draw, n, lamb, mu, probs, t).value.probs;
            forall i :: 0 <= i < |q| ==> 1.0 / n as real <= q[i] <= 1.0 - 1.0 / n as real
  {
    var pop := Population(probs, draw, t, lamb);
    var fv := Fitness(problem, pop);
    var elites := Elites(fv, mu);
    ClipBounds(Mean(pop, elites, |probs|), n);
  }

  /** The generation step of an instance, as a function of the probabilities and the count. */
  function GenerationStep(problem: seq<int> -> int, draw: Draws, n: nat, lamb: int, mu: int)
    : (step: (seq<real>, int) -> Result<Generation, Exception>)
    ensures forall p, t :: step(p, t) == NextGeneration(problem, draw, n, lamb, mu, p, t)
  {
    (p, t) => NextGeneration(problem, draw, n, lamb, mu, p, t)
  }

  /**
   * The properties of a generation step that the loop relies on: a
   * successful generation costs `lamb >= 1` evaluations and keeps the length
   * of the probability vector.
   */
  ghost predicate Advances(step: (seq<real>, int) -> Result<Generation, Exception>, lamb: int) {
    forall p, t :: step(p, t).Ok? ==> lamb >= 1 && |step(p, t).value.probs| == |p|
  }

  lemma GenerationStepAdvances(problem: seq<int> -> int, draw: Draws, n: nat, lamb: int, mu: int)
    ensures Advances(GenerationStep(problem, draw, n, lamb, mu), lamb)
  {
  }

  /** What a run ends with: the last best fitness, the count, and the probabilities. */
  datatype Outcome = Outcome(best: int, cnt: int, probs: seq<real>)

  /** The loop from probabilities `probs`, count `cnt` and last best fitness `best`. */
  function RunFrom(step: (seq<real>, int) -> Result<Generation, Exception>, lamb: int,
                   optimum: int, maxEvals: int, probs: seq<real>, cnt: int, best: int): (r: Result<Outcome, Exception>)
    requires Advances(step, lamb)
    decreases maxEvals - cnt
  {
    if cnt < maxEvals then
      match step(probs, cnt)
      case Err(e) => Err(e)
      case Ok(g) =>
        if g.best >= optimum then Ok(Outcome(g.best, cnt + lamb, g.probs))
        else RunFrom(step, lamb, optimum, maxEvals, g.probs, cnt + lamb, g.best)
    else Ok(Outcome(best, cnt, probs))
  }

  /**
   * What a run returns: the count stays below the budget only on convergence
   * and overshoots it by less than one generation; the probability vector
   * keeps its length. With no budget nothing is sampled: the sentinel and the
   * count come back unchanged.
   */
  lemma {:induction false} RunFromOutcome(step: (seq<real>, int) -> Result<Generation, Exception>, lamb: int,
                                          optimum: int, maxEvals: int, probs: seq<real>, cnt: int, best: int)
    requires Advances(step, lamb)
    ensures var r := RunFrom(step, lamb, optimum, maxEvals, probs, cnt, best);
            && (cnt >= maxEvals ==> r == Ok(Outcome(best, cnt, probs)))
            && (r.Ok? ==> && |r.value.probs| == |probs|
                          && cnt <= r.value.cnt
                          && (r.value.cnt < maxEvals ==> r.value.best >= optimum)
                          && (cnt < maxEvals ==> r.value.cnt < maxEvals + lamb)
                          && (r.value.best < optimum ==> r.value.cnt >= maxEvals))
    decreases maxEvals - cnt
  {
    if cnt < maxEvals {
      var g := step(probs, cnt);
      if g.Ok? && g.value.best < optimum {
        RunFromOutcome(step, lamb, optimum, maxEvals, g.value.probs, cnt + lamb, g.value.best);
      }
    }
  }

  /** The count advances by whole generations of `lamb` evaluations. */
  lemma {:induction false} RunFromWholeGenerations(step: (seq<real>, int) -> Result<Generation, Exception>, lamb: int,
                                                   optimum: int, maxEvals: int, probs: seq<real>, cnt: int, best: int)
    requires Advances(step, lamb)
    ensures var r := RunFrom(step, lamb, optimum, maxEvals, probs, cnt, best);
            r.Ok? ==> exists g: nat :: r.value.cnt == cnt + g * lamb
    decreases maxEvals - cnt
  {
    var r := RunFrom(step, lamb, optimum, maxEvals, probs, cnt, best);
    if cnt < maxEvals {
      var s := step(probs, cnt);
      if s.Ok? && s.value.best < optimum {
        RunFromWholeGenerations(step, lamb, optimum, maxEvals, s.value.probs, cnt + lamb, s.value.best);
        if r.Ok? {
          var g: nat :| r.value.cnt == cnt + lamb + g * lamb;
          assert r.value.cnt == cnt + (g + 1) * lamb;
        }
      } else if s.Ok? {
        assert r.value.cnt == cnt + 1 * lamb;
      }
    } else {
      assert r.value.cnt == cnt + 0 * lamb;
    }
  }

  /** An instance of UMDA; its probability vector persists from one run to the next. */
  class Umda {
    const n: nat
    const lamb: int
    const mu: int
    var probabilities: seq<real>

    /** `UMDA.__init__(n, lamb, mu)`: every probability starts at 0.5. */
    constructor (n: nat, lamb: int, mu: int)
      ensures this.n == n && this.lamb == lamb && this.mu == mu
      ensures probabilities == seq(n, i => 0.5)
    {
      this.n := n;
      this.lamb := lamb;
      this.mu := mu;
      probabilities := seq(n, i => 0.5);
    }

    /**
     * The `while` loop of `run`, one `step` per generation, on the
     * probability vector it starts from; the field is set to the vector
     * this returns, which is its value after the last completed generation.
     */
    method Loop(step: (seq<real>, int) -> Result<Generation, Exception>, optimum: int, maxEvals: int, start: seq<real>)
      returns (probs: seq<real>, cnt: int, bestFitness: int, failure: Option<Exception>)
      requires Advances(step, lamb)
      ensures |probs| == |start|
      ensures var spec := RunFrom(step, lamb, optimum, maxEvals, start, 0, Sentinel);
              && (spec.Ok? ==> failure == None && spec.value == Outcome(bestFitness, cnt, probs))
              && (spec.Err? ==> failure == Some(spec.error))
    {
      ghost var spec := RunFrom(step, lamb, optimum, maxEvals, start, 0, Sentinel);
      probs, cnt, bestFitness, failure := start, 0, Sentinel, None;
      while cnt < maxEvals
        invariant |probs| == |start|
        invariant RunFrom(step, lamb, optimum, maxEvals, probs, cnt, bestFitness) == spec
        decreases maxEvals - cnt
      {
        var g := step(probs, cnt);
        cnt := cnt + lamb;
        if g.Err? {
          failure := Some(g.error);
          return;
        }
        probs, bestFitness := g.value.probs, g.value.best;
        if bestFitness >= optimum {
          return;
        }
      }
    }

    /**
     * `UMDA.run(problem, optimum, max_evals)`: the count starts at 0 and the
     * best fitness at the sentinel; the probabilities go on from where the
     * previous run left them.
     */
    method Run(problem: seq<int> -> int, draw: Draws, optimum: int, maxEvals: int)
      returns (r: Result<(int, int), Exception>)
      modifies this
      ensures |probabilities| == |old(probabilities)|
      ensures var spec := RunFrom(GenerationStep(problem, draw, n, lamb, mu), lamb, optimum, maxEvals,
                                  old(probabilities), 0, Sentinel);
              && (spec.Ok? ==> r == Ok((spec.value.best, spec.value.cnt)) && probabilities == spec.value.probs)
              && (spec.Err? ==> r == Err(spec.error))
    {
      GenerationStepAdvances(problem, draw, n, lamb, mu);
      var probs, cnt, bestFitness, failure := Loop(GenerationStep(problem, draw, n, lamb, mu), optimum, maxEvals,
                                                   probabilities);
      probabilities := probs;
      if failure.Some? {
        return Err(failure.value);
      }
      return Ok((bestFitness, cnt));
    }
  }
}
