/**
 * The benchmark registry (src/benchmarks/benchmark_wrapper.py): a
 * class-level dictionary of benchmark records, filled at import time with
 * five problems, together with their optimum and budget functions.
 */
module Benchmarks {
  import opened Wrappers
  import opened Numeric

  /** A `Benchmark` record: fitness function, display name, optimum and budget as functions of `n`. */
  datatype Benchmark = Benchmark(problem: seq<int> -> int, name: string, optimumFn: int -> int, budgetFn: int -> int)

  /** `lambda n: n`, the optimum of LO, OM and JUMP. */
  function LinearOptimum(n: int): int { n }

  /** `lambda n: n * (n + 1) // 2`, the optimum of LFHW. */
  function LfhwOptimum(n: int): int { n * (n + 1) / 2 }

  /** The weights `1, 2, …, n` of the linear function with harmonic weights, summed. */
  function WeightSum(n: nat): nat {
    if n == 0 then 0 else n + WeightSum(n - 1)
  }

  /** The LFHW optimum is the total weight, the fitness of the all-ones vector. */
  lemma {:induction false} LfhwOptimumIsTotalWeight(n: nat)
    ensures LfhwOptimum(n) == WeightSum(n)
  {
    if n > 0 {
      LfhwOptimumIsTotalWeight(n - 1);
      assert n * (n + 1) == (n - 1) * n + 2 * n;
    }
  }

  /** The estimated MIVS optima by problem size, as listed in `_mivs_opt`. */
  const MivsTable: map<int, real> := map[
    20 := 8.93, 22 := 10.05, 24 := 10.75, 26 := 11.67, 28 := 12.48,
    30 := 13.37, 34 := 15.06, 36 := 15.96, 40 := 17.69, 42 := 18.78,
    46 := 20.14, 50 := 21.94, 56 := 24.65, 60 := 26.33, 66 := 28.93,
    72 := 31.45, 78 := 34.21, 84 := 36.6, 92 := 40.09, 100 := 43.61]

  /** `_mivs_opt(n)`: `int(lookup.get(n, 0.0) - 0.5)`, truncating toward zero. */
  function MivsOpt(n: int): int {
    Trunc((if n in MivsTable then MivsTable[n] else 0.0) - 0.5)
  }

  /** A size missing from the table gets `int(-0.5)`, which is 0. */
  lemma MivsOptAbsent(n: int)
    requires n !in MivsTable
    ensures MivsOpt(n) == 0
  {
    TruncOfNegativeFraction();
  }

  /** For a listed size the optimum is the estimate less one half, rounded down. */
  lemma MivsOptListed(n: int)
    requires n in MivsTable
    ensures MivsTable[n] - 1.5 < MivsOpt(n) as real <= MivsTable[n] - 0.5
    ensures MivsOpt(n) >= 8
  {
    assert MivsTable[n] >= 8.93;
  }

  lemma MivsOptExamples()
    ensures MivsOpt(20) == 8 && MivsOpt(22) == 9 && MivsOpt(100) == 43 && MivsOpt(21) == 0
  {
    MivsOptListed(20);
    MivsOptListed(22);
    MivsOptListed(100);
    MivsOptAbsent(21);
  }

  /** `_default_budget(n)`: `int(30 * (n * log(n)))`, with `log(n)` given as `logN`. */
  function DefaultBudget(n: int, logN: real): (b: int)
    ensures n >= 0 && logN >= 0.0 ==> b >= 0
  {
    Trunc(30.0 * (n as real * logN))
  }

  /** The default budget is non-negative and grows with `n log n`. */
  lemma DefaultBudgetMonotone(n: nat, logN: real, n': nat, logN': real)
    requires 0.0 <= logN <= logN' && n <= n'
    ensures 0 <= DefaultBudget(n, logN) <= DefaultBudget(n', logN')
  {
    assert n as real * logN <= n' as real * logN;
    assert n' as real * logN <= n' as real * logN';
    TruncMonotone(30.0 * (n as real * logN), 30.0 * (n' as real * logN'));
  }

  class Registry {
    /** The registry's keys in insertion order, and the dictionary itself. */
    var order: seq<string>
    var entries: map<string, Benchmark>

    ghost predicate Valid()
      reads this
    {
      Distinct(order) && forall k :: k in entries <==> k in order
    }

    constructor ()
      ensures Valid() && order == [] && entries == map[]
    {
      order := [];
      entries := map[];
    }

    /**
     * The registrations run when the module is imported: LO, OM, MIVS, LFHW
     * and JUMP, each with the default budget `DefaultBudget(n, log(n))`.
     * The fitness functions are given; `log` is given as a function of `n`.
     */
    constructor WithDefaults(leadingOnes: seq<int> -> int, oneMax: seq<int> -> int, mivs: seq<int> -> int,
                             linearHarmonic: seq<int> -> int, jump: seq<int> -> int, log: int -> real)
      ensures Valid()
      ensures order == ["LO", "OM", "MIVS", "LFHW", "JUMP"]
      ensures var budget := n => DefaultBudget(n, log(n));
              && entries["LO"] == Benchmark(leadingOnes, "LO", LinearOptimum, budget)
              && entries["OM"] == Benchmark(oneMax, "OM", LinearOptimum, budget)
              && entries["MIVS"] == Benchmark(mivs, "MIVS", MivsOpt, budget)
              && entries["LFHW"] == Benchmark(linearHarmonic, "LFHW", LfhwOptimum, budget)
              && entries["JUMP"] == Benchmark(jump, "JUMP", LinearOptimum, budget)
    {
      var budget := n => DefaultBudget(n, log(n));
      order := ["LO", "OM", "MIVS", "LFHW", "JUMP"];
      entries := map["LO" := Benchmark(leadingOnes, "LO", LinearOptimum, budget),
                     "OM" := Benchmark(oneMax, "OM", LinearOptimum, budget),
                     "MIVS" := Benchmark(mivs, "MIVS", MivsOpt, budget),
                     "LFHW" := Benchmark(linearHarmonic, "LFHW", LfhwOptimum, budget),
                     "JUMP" := Benchmark(jump, "JUMP", LinearOptimum, budget)];
    }

    /**
     * `register(key, …)`: stores the record under `key`, silently replacing
     * an existing one; a replaced key keeps its place in the key order.
     */
    method Register(key: string, name: string, problem: seq<int> -> int, optimumFn: int -> int, budgetFn: int -> int)
      requires Valid()
      modifies this
      ensures Valid()
      ensures entries == old(entries)[key := Benchmark(problem, name, optimumFn, budgetFn)]
      ensures order == if key in old(entries) then old(order) else old(order) + [key]
    {
      if key !in entries {
        order := order + [key];
      }
      entries := entries[key := Benchmark(problem, name, optimumFn, budgetFn)];
    }

    /** `get(key)`: the record stored under `key`, or `KeyError`. */
    function Get(key: string): (r: Result<Benchmark, Exception>)
      reads this
      ensures r.Ok? <==> key in entries
      ensures r.Err? ==> r.error == KeyError
      ensures r.Ok? ==> r.value == entries[key]
    {
      if key in entries then Ok(entries[key]) else Err(KeyError)
    }

    /** `keys()`: every registered key once, in registration order. */
    function Keys(): (r: seq<string>)
      reads this
      requires Valid()
      ensures Distinct(r)
      ensures forall k :: k in r <==> k in entries
    {
      order
    }
  }
}
