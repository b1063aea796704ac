/**
 * Building job suites (src/simulation/config_builder.py): `JobSuiteBuilder`
 * validates a sweep against the two registries, then appends one job
 * dictionary per problem size, with the algorithm's arguments resolved at
 * that size, the budget chosen, and a readable description.
 */
module ConfigBuilder {
  import opened Wrappers
  import opened AlgorithmFactory
  import Benchmarks
  import Arguments

  /** An `algo_args` value: an integer, or a callable of `n` with its `__name__` when it has one. */
  datatype ArgValue = Literal(v: int) | Callable(f: int -> int, name: Option<string>)

  /** A `budget` override: an integer, or a callable with its `__name__` when it has one and its `str`. */
  datatype Budget = Fixed(amount: int) | Formula(f: int -> int, name: Option<string>, text: string)

  /** Why a sweep is refused; each of these is a `ValueError` in the source. */
  datatype Rejection = UnknownAlgorithm | UnknownBenchmark | UnknownParameter(name: string)
                     | ZeroStep | MissingNum | MissingStep | UnknownRangeType

  /** A job dictionary as `add_sweep` appends it. */
  datatype SuiteJob = SuiteJob(algorithm: string, algoArgs: seq<(string, int)>, benchmark: string, n: int,
                               reps: int, maxEvals: int, budgetDescription: Option<string>, description: string)

  // ---------------------------------------------------------------- str(int)

  function Digit(d: int): char
    requires 0 <= d < 10
  {
    ('0' as int + d) as char
  }

  /** Decimal digits of a natural number, without leading zeros. */
  function NatToString(k: nat): (s: string)
    ensures |s| >= 1 && forall i :: 0 <= i < |s| ==> '0' <= s[i] <= '9'
  {
    if k < 10 then [Digit(k)] else NatToString(k / 10) + [Digit(k % 10)]
  }

  /** `str(k)` for a Python integer. */
  function IntToString(k: int): string {
    if k < 0 then "-" + NatToString(-k) else NatToString(k)
  }

  function ParseNat(s: string): int {
    if s == [] then 0 else ParseNat(s[..|s| - 1]) * 10 + (s[|s| - 1] as int - '0' as int)
  }

  /** `int(s)` for a string of decimal digits, with an optional leading minus sign. */
  function ParseInt(s: string): int {
    if |s| > 0 && s[0] == '-' then -ParseNat(s[1..]) else ParseNat(s)
  }

  lemma {:induction false} ParseNatOfNatToString(k: nat)
    ensures ParseNat(NatToString(k)) == k
  {
    if k >= 10 {
      var s := NatToString(k);
      assert s[..|s| - 1] == NatToString(k / 10);
      ParseNatOfNatToString(k / 10);
    }
  }

  /** `str` on integers is undone by `int`: the `n=` part of a description gives `n` back. */
  lemma IntToStringRoundTrip(k: int)
    ensures ParseInt(IntToString(k)) == k
  {
    if k < 0 {
      assert IntToString(k)[1..] == NatToString(-k);
      ParseNatOfNatToString(-k);
    } else {
      ParseNatOfNatToString(k);
    }
  }

  // ---------------------------------------------------------------- dictionaries as ordered pairs

  /** The keys of an ordered dictionary, in order. */
  function Keys<V>(d: seq<(string, V)>): (r: seq<string>)
    ensures |r| == |d| && forall i :: 0 <= i < |d| ==> r[i] == d[i].0
  {
    if d == [] then [] else [d[0].0] + Keys(d[1..])
  }

  /** `d[k]`, or `None` when `k` is not a key. */
  function Lookup<V>(d: seq<(string, V)>, k: string): (r: Option<V>)
    ensures r.Some? <==> k in Keys(d)
  {
    if d == [] then None else if d[0].0 == k then Some(d[0].1) else Lookup(d[1..], k)
  }

  // ---------------------------------------------------------------- validation

  /** `set(sig.parameters) - {"self"}`. */
  function ValidParameters(ps: seq<Parameter>): set<string> {
    set i | 0 <= i < |ps| && ps[i].name != "self" :: ps[i].name
  }

  /** The first key not among the valid parameters, if there is one. */
  function FirstInvalid(keys: seq<string>, valid: set<string>): (r: Option<string>)
    ensures r.None? <==> forall i :: 0 <= i < |keys| ==> keys[i] in valid
    ensures r.Some? ==> r.value in keys && r.value !in valid
  {
    if keys == [] then None
    else if keys[0] !in valid then Some(keys[0])
    else FirstInvalid(keys[1..], valid)
  }

  /**
   * The checks at the start of `add_sweep`, in their order: the algorithm is
   * registered, the benchmark is registered, every key of `algo_args` is a
   * constructor parameter.
   */
  function Validate(reg: Registry, bms: Benchmarks.Registry, algorithm: string, argKeys: seq<string>,
                    benchmark: string): (r: Option<Rejection>)
    reads reg, bms
    requires reg.Valid() && bms.Valid()
    ensures r.None? <==>
              (algorithm in reg.classes && benchmark in bms.entries
               && forall i :: 0 <= i < |argKeys| ==> argKeys[i] in ValidParameters(Signature(reg.classes[algorithm])))
    ensures r == Some(UnknownAlgorithm) <==> algorithm !in reg.classes
    ensures r == Some(UnknownBenchmark) <==> algorithm in reg.classes && benchmark !in bms.entries
    ensures r.Some? && r.value.UnknownParameter? ==>
              algorithm in reg.classes && benchmark in bms.entries && r.value.name in argKeys
              && r.value.name !in ValidParameters(Signature(reg.classes[algorithm]))
  {
    if algorithm !in reg.Available() then Some(UnknownAlgorithm)
    else if benchmark !in bms.Keys() then Some(UnknownBenchmark)
    else
      var bad := FirstInvalid(argKeys, ValidParameters(Signature(reg.classes[algorithm])));
      if bad.Some? then Some(UnknownParameter(bad.value)) else None
  }

  // ---------------------------------------------------------------- resolving arguments

  /** `raw(n) if callable(raw) else raw`. */
  function Evaluate(a: ArgValue, n: int): int {
    match a
    case Literal(v) => v
    case Callable(f, _) => f(n)
  }

  /**
   * `resolved_args` at size `n`: the constructor's parameters in declaration
   * order, `self` skipped, `n` set to `n`, the others taken from `algo_args`
   * and evaluated at `n`, the rest left out.
   */
  function ResolveArgs(ps: seq<Parameter>, args: seq<(string, ArgValue)>, n: int): seq<(string, int)> {
    if ps == [] then []
    else
      var rest := ResolveArgs(ps[1..], args, n);
      var name := ps[0].name;
      if name == "self" then rest
      else if name == "n" then [("n", n)] + rest
      else if name in Keys(args) then [(name, Evaluate(Lookup(args, name).value, n))] + rest
      else rest
  }

  /** Every resolved argument is a constructor parameter other than `self`. */
  lemma {:induction false} ResolvedAreParameters(ps: seq<Parameter>, args: seq<(string, ArgValue)>, n: int)
    ensures forall i :: 0 <= i < |ResolveArgs(ps, args, n)| ==>
              ResolveArgs(ps, args, n)[i].0 != "self" && ResolveArgs(ps, args, n)[i].0 in Names(ps)
  {
    if ps != [] {
      ResolvedAreParameters(ps[1..], args, n);
      var rest := ResolveArgs(ps[1..], args, n);
      var r := ResolveArgs(ps, args, n);
      assert Names(ps) == [ps[0].name] + Names(ps[1..]);
      var name := ps[0].name;
      if name != "self" && (name == "n" || name in Keys(args)) {
        assert r[0].0 == name && r[1..] == rest;
        forall i | 0 < i < |r| ensures r[i].0 != "self" && r[i].0 in Names(ps) {
          assert r[i] == rest[i - 1];
        }
      }
    }
  }

  /** A resolved `(name, value)`: `n` at the size, any other name evaluated from `algo_args`. */
  predicate ResolvedValue(kv: (string, int), args: seq<(string, ArgValue)>, n: int) {
    (kv.0 == "n" && kv.1 == n)
    || (kv.0 != "n" && kv.0 in Keys(args) && kv.1 == Evaluate(Lookup(args, kv.0).value, n))
  }

  /** `n` is set to the size and every other parameter to its `algo_args` value at that size. */
  lemma {:induction false} ResolvedValues(ps: seq<Parameter>, args: seq<(string, ArgValue)>, n: int)
    ensures forall i :: 0 <= i < |ResolveArgs(ps, args, n)| ==>
              ResolvedValue(ResolveArgs(ps, args, n)[i], args, n)
  {
    if ps != [] {
      ResolvedValues(ps[1..], args, n);
      var rest := ResolveArgs(ps[1..], args, n);
      var r := ResolveArgs(ps, args, n);
      forall i | 0 <= i < |r| ensures ResolvedValue(r[i], args, n) {
        var name := ps[0].name;
        if name != "self" && (name == "n" || name in Keys(args)) && i > 0 {
          assert r[1..] == rest;
          assert r[i] == rest[i - 1];
        }
      }
    }
  }

  /** Every parameter other than `self` that is `n` or a key of `algo_args` is resolved. */
  lemma {:induction false} ResolvedCoversParameters(ps: seq<Parameter>, args: seq<(string, ArgValue)>, n: int)
    ensures forall i :: 0 <= i < |ps| && ps[i].name != "self" && (ps[i].name == "n" || ps[i].name in Keys(args)) ==>
              ps[i].name in Keys(ResolveArgs(ps, args, n))
  {
    if ps != [] {
      ResolvedCoversParameters(ps[1..], args, n);
      var rest := ResolveArgs(ps[1..], args, n);
      var r := ResolveArgs(ps, args, n);
      assert forall i :: 0 <= i < |ps[1..]| ==> ps[1..][i] == ps[i + 1];
      assert forall i :: 0 <= i < |rest| ==> rest[i].0 in Keys(r);
    }
  }

  // ---------------------------------------------------------------- budget and description

  /** Python truthiness of an optional string. */
  predicate Truthy(s: Option<string>) {
    s.Some? && s.value != ""
  }

  /**
   * The description of a budget override: `budget_description` when it is
   * non-empty, else the callable's `__name__`, else `str(budget)`.
   */
  function BudgetText(b: Budget, budgetDescription: Option<string>): (d: string)
    ensures Truthy(budgetDescription) ==> d == budgetDescription.value
    ensures !Truthy(budgetDescription) && b.Formula? && b.name.Some? ==> d == b.name.value
    ensures !Truthy(budgetDescription) && b.Formula? && b.name.None? ==> d == b.text
    ensures !Truthy(budgetDescription) && b.Fixed? ==> ParseInt(d) == b.amount
  {
    if Truthy(budgetDescription) then budgetDescription.value
    else match b
      case Formula(_, name, repr) => if name.Some? then name.value else repr
      case Fixed(k) => IntToStringRoundTrip(k); IntToString(k)
  }

  /**
   * The budget and its description: without an override, the benchmark's
   * budget at `n` and no description; with one, its value at `n` and its
   * `BudgetText`.
   */
  function ResolveBudget(budgetFn: int -> int, budget: Option<Budget>, budgetDescription: Option<string>,
                         n: int): (r: (int, Option<string>))
    ensures budget.None? ==> r == (budgetFn(n), None)
    ensures budget.Some? ==> r.1 == Some(BudgetText(budget.value, budgetDescription))
    ensures budget.Some? && budget.value.Fixed? ==> r.0 == budget.value.amount
    ensures budget.Some? && budget.value.Formula? ==> r.0 == budget.value.f(n)
  {
    match budget
    case None => (budgetFn(n), None)
    case Some(b) =>
      var amount := match b case Fixed(k) => k case Formula(f, _, _) => f(n);
      (amount, Some(BudgetText(b, budgetDescription)))
  }

  /**
   * How one argument is described: its entry in `param_descriptions`, else
   * the callable's name unless it is a lambda, else `<expr>` for any other
   * callable, else `str` of the integer.
   */
  function ArgDescription(k: string, a: ArgValue, descriptions: map<string, string>): (d: string)
    ensures k in descriptions ==> d == descriptions[k]
    ensures k !in descriptions && a.Literal? ==> ParseInt(d) == a.v
    ensures k !in descriptions && a.Callable? && a.name.Some? && a.name.value != "<lambda>" ==> d == a.name.value
    ensures k !in descriptions && a.Callable? && (a.name.None? || a.name.value == "<lambda>") ==> d == "<expr>"
  {
    if k in descriptions then descriptions[k]
    else match a
      case Callable(_, name) => if name.Some? && name.value != "<lambda>" then name.value else "<expr>"
      case Literal(v) => IntToStringRoundTrip(v); IntToString(v)
  }

  /** `f"{k}={desc}"` for one argument. */
  function ArgPart(k: string, a: ArgValue, descriptions: map<string, string>): string {
    k + "=" + ArgDescription(k, a, descriptions)
  }

  function ArgParts(args: seq<(string, ArgValue)>, descriptions: map<string, string>): (r: seq<string>)
    ensures |r| == |args|
    ensures forall i :: 0 <= i < |args| ==> r[i] == args[i].0 + "=" + ArgDescription(args[i].0, args[i].1, descriptions)
  {
    seq(|args|, i requires 0 <= i < |args| => ArgPart(args[i].0, args[i].1, descriptions))
  }

  lemma ArgPartsStep(args: seq<(string, ArgValue)>, descriptions: map<string, string>, i: nat)
    requires i < |args|
    ensures ArgParts(args[..i + 1], descriptions)
            == ArgParts(args[..i], descriptions) + [ArgPart(args[i].0, args[i].1, descriptions)]
  {
    var l := ArgParts(args[..i + 1], descriptions);
    var h := ArgParts(args[..i], descriptions);
    var r := h + [ArgPart(args[i].0, args[i].1, descriptions)];
    assert |l| == |r|;
    forall k | 0 <= k < |l|
      ensures l[k] == r[k]
    {
      assert l[k] == ArgPart(args[k].0, args[k].1, descriptions);
      if k < i {
        assert r[k] == h[k] == ArgPart(args[k].0, args[k].1, descriptions);
      }
    }
  }

  /** In `[h] + a + b` the elements of `a` sit one place further on. */
  lemma ShiftedByHead(h: string, a: seq<string>, b: seq<string>)
    ensures forall i :: 0 <= i < |a| ==> ([h] + a + b)[i + 1] == a[i]
  {
    forall i | 0 <= i < |a|
      ensures ([h] + a + b)[i + 1] == a[i]
    {
      assert [h] + a + b == [h] + (a + b);
    }
  }

  /** The `parts` list: `n=<n>`, one `k=<desc>` per argument in `algo_args` order, then the budget if described. */
  function Parts(args: seq<(string, ArgValue)>, descriptions: map<string, string>, n: int,
                 budgetDesc: Option<string>): (parts: seq<string>)
    ensures |parts| == 1 + |args| + (if Truthy(budgetDesc) then 1 else 0)
    ensures parts[0] == "n=" + IntToString(n)
    ensures forall i :: 0 <= i < |args| ==> parts[i + 1] == args[i].0 + "=" + ArgDescription(args[i].0, args[i].1, descriptions)
    ensures Truthy(budgetDesc) ==> parts[|parts| - 1] == "budget=" + budgetDesc.value
  {
    var a := ArgParts(args, descriptions);
    var b := if Truthy(budgetDesc) then ["budget=" + budgetDesc.value] else [];
    ShiftedByHead("n=" + IntToString(n), a, b);
    ["n=" + IntToString(n)] + a + b
  }

  /** `", ".join(parts)`. */
  function Join(parts: seq<string>): string {
    if parts == [] then "" else if |parts| == 1 then parts[0] else parts[0] + ", " + Join(parts[1..])
  }

  /** `f"{algorithm}({', '.join(parts)})"`. */
  function Description(algorithm: string, parts: seq<string>): string {
    algorithm + "(" + Join(parts) + ")"
  }

  /** The text that every description of a job at size `n` starts with. */
  function Head(algorithm: string, n: int): string {
    algorithm + "(n=" + IntToString(n)
  }

  /** A description as `add_sweep` builds it: it names the algorithm and then `n`, delimited, and closes with `)`. */
  predicate Describes(d: string, algorithm: string, n: int) {
    var h := Head(algorithm, n);
    |d| > |h| && d[..|h|] == h && (d[|h|] == ',' || d[|h|] == ')') && d[|d| - 1] == ')'
  }

  lemma JoinStart(parts: seq<string>)
    requires |parts| >= 1
    ensures |Join(parts)| >= |parts[0]|
    ensures Join(parts)[..|parts[0]|] == parts[0]
    ensures |parts| == 1 ==> Join(parts) == parts[0]
    ensures |parts| > 1 ==> |Join(parts)| > |parts[0]| && Join(parts)[|parts[0]|] == ','
  {
    if |parts| > 1 {
      assert Join(parts) == parts[0] + (", " + Join(parts[1..]));
    }
  }

  /**
   * Every description starts with `algorithm(n=<n>` followed by `,` or `)`
   * and ends with `)`, so the size can be read back from it.
   */
  lemma DescriptionNamesSize(algorithm: string, args: seq<(string, ArgValue)>, descriptions: map<string, string>,
                             n: int, budgetDesc: Option<string>)
    ensures Describes(Description(algorithm, Parts(args, descriptions, n, budgetDesc)), algorithm, n)
  {
    PartsDescribe(algorithm, Parts(args, descriptions, n, budgetDesc), n);
  }

  /** Any parts list headed by `n=<n>` is described as a job at size `n`. */
  lemma PartsDescribe(algorithm: string, parts: seq<string>, n: int)
    requires |parts| >= 1 && parts[0] == "n=" + IntToString(n)
    ensures Describes(Description(algorithm, parts), algorithm, n)
  {
    JoinStart(parts);
    var pre := algorithm + "(";
    HeadSplits(algorithm, IntToString(n));
    EnclosedPrefix(pre, Join(parts), parts[0]);
  }

  /** `algorithm(n=<s>` is `algorithm(` followed by the part `n=<s>`. */
  lemma HeadSplits(algorithm: string, s: string)
    ensures algorithm + "(n=" + s == algorithm + "(" + ("n=" + s)
  {
  }

  /** `pre + j + ")"` starts with `pre + p` followed by `,` or `)` when `j` starts with `p` followed by `,` or nothing. */
  lemma EnclosedPrefix(pre: string, j: string, p: string)
    requires |j| >= |p| && j[..|p|] == p && (|j| == |p| || j[|p|] == ',')
    ensures var d := pre + j + ")";
            var h := pre + p;
            |d| > |h| && d[..|h|] == h && (d[|h|] == ',' || d[|h|] == ')') && d[|d| - 1] == ')'
  {
    var d := pre + j + ")";
    assert d[..|pre + p|] == pre + j[..|p|];
  }

  /**
   * What a sweep fixes before its loop over sizes: the arguments of
   * `add_sweep`, with the algorithm's class and the benchmark's budget
   * function already looked up in the registries.
   */
  datatype Plan = Plan(algorithm: string, cls: AlgorithmClass, args: seq<(string, ArgValue)>, benchmark: string,
                       budgetFn: int -> int, reps: int, budget: Option<Budget>,
                       descriptions: map<string, string>, budgetDescription: Option<string>)

  function PlanOf(reg: Registry, bms: Benchmarks.Registry, algorithm: string, args: seq<(string, ArgValue)>,
                  benchmark: string, reps: int, budget: Option<Budget>, descriptions: map<string, string>,
                  budgetDescription: Option<string>): Plan
    reads reg, bms
    requires algorithm in reg.classes && benchmark in bms.entries
  {
    Plan(algorithm, reg.classes[algorithm], args, benchmark, bms.entries[benchmark].budgetFn, reps, budget,
         descriptions, budgetDescription)
  }

  /** The job that `add_sweep` appends for size `n`. */
  function MakeJob(p: Plan, n: int): (j: SuiteJob)
    ensures j.algorithm == p.algorithm && j.benchmark == p.benchmark && j.n == n && j.reps == p.reps
    ensures Describes(j.description, p.algorithm, n)
  {
    var (maxEvals, budgetDesc) := ResolveBudget(p.budgetFn, p.budget, p.budgetDescription, n);
    DescriptionNamesSize(p.algorithm, p.args, p.descriptions, n, budgetDesc);
    SuiteJob(p.algorithm, ResolveArgs(Signature(p.cls), p.args, n), p.benchmark, n, p.reps,
             maxEvals, budgetDesc, Description(p.algorithm, Parts(p.args, p.descriptions, n, budgetDesc)))
  }

  function JobMaker(p: Plan): int -> SuiteJob {
    n => MakeJob(p, n)
  }

  /** One job per size, in order. */
  function ForEachSize(make: int -> SuiteJob, nValues: seq<int>): (js: seq<SuiteJob>)
    ensures |js| == |nValues|
  {
    if nValues == [] then [] else [make(nValues[0])] + ForEachSize(make, nValues[1..])
  }

  lemma {:induction false} ForEachSizeAt(make: int -> SuiteJob, nValues: seq<int>)
    ensures forall i :: 0 <= i < |nValues| ==> ForEachSize(make, nValues)[i] == make(nValues[i])
  {
    if nValues != [] {
      ForEachSizeAt(make, nValues[1..]);
    }
  }

  lemma {:induction false} ForEachSizeAppend(make: int -> SuiteJob, nValues: seq<int>, n: int)
    ensures ForEachSize(make, nValues + [n]) == ForEachSize(make, nValues) + [make(n)]
  {
    if nValues != [] {
      assert (nValues + [n])[1..] == nValues[1..] + [n];
      ForEachSizeAppend(make, nValues[1..], n);
    }
  }

  /** One more size, one more job. */
  lemma SweepStep(p: Plan, nValues: seq<int>, i: nat)
    requires i < |nValues|
    ensures Sweep(p, nValues[..i + 1]) == Sweep(p, nValues[..i]) + [MakeJob(p, nValues[i])]
  {
    assert nValues[..i + 1] == nValues[..i] + [nValues[i]];
    ForEachSizeAppend(JobMaker(p), nValues[..i], nValues[i]);
  }

  /** Appending the job for the next size extends the sweep by one. */
  lemma AppendStep(before: seq<SuiteJob>, jobs: seq<SuiteJob>, p: Plan, nValues: seq<int>, i: nat, job: SuiteJob)
    requires i < |nValues| && jobs == before + Sweep(p, nValues[..i]) && job == MakeJob(p, nValues[i])
    ensures jobs + [job] == before + Sweep(p, nValues[..i + 1])
  {
    SweepStep(p, nValues, i);
  }

  /** The jobs of an accepted sweep. */
  function Sweep(p: Plan, nValues: seq<int>): seq<SuiteJob> {
    ForEachSize(JobMaker(p), nValues)
  }

  /** Exactly one job per size, in order, each for the sweep's algorithm and benchmark and described by its size. */
  lemma SweepOnePerSize(p: Plan, nValues: seq<int>)
    ensures var js := Sweep(p, nValues);
            && |js| == |nValues|
            && forall i :: 0 <= i < |js| ==> js[i].n == nValues[i] && js[i].algorithm == p.algorithm && js[i].reps == p.reps
                                             && js[i].benchmark == p.benchmark && Describes(js[i].description, p.algorithm, nValues[i])
  {
    var js := Sweep(p, nValues);
    ForEachSizeAt(JobMaker(p), nValues);
    forall i | 0 <= i < |js|
      ensures js[i].n == nValues[i] && js[i].algorithm == p.algorithm && js[i].reps == p.reps
              && js[i].benchmark == p.benchmark && Describes(js[i].description, p.algorithm, nValues[i])
    {
      assert js[i] == MakeJob(p, nValues[i]);
    }
  }

  // ---------------------------------------------------------------- size lists

  /** `list(range(start, stop, step))` for a non-zero step. */
  function Arithmetic(start: int, stop: int, step: int): (r: seq<int>)
    requires step != 0
    ensures forall i :: 0 <= i < |r| ==> r[i] == start + i * step
    ensures step > 0 ==> (forall i :: 0 <= i < |r| ==> r[i] < stop) && start + |r| * step >= stop
    ensures step < 0 ==> (forall i :: 0 <= i < |r| ==> r[i] > stop) && start + |r| * step <= stop
    decreases if step > 0 then stop - start else start - stop
  {
    if (step > 0 && start < stop) || (step < 0 && start > stop) then
      var rest := Arithmetic(start + step, stop, step);
      assert forall i :: 0 <= i < |rest| ==> rest[i] == start + (i + 1) * step;
      assert start + step + |rest| * step == start + (|rest| + 1) * step;
      [start] + rest
    else []
  }

  /** `range(start, stop, step)`, which refuses a zero step. */
  function PyRange(start: int, stop: int, step: int): (r: Result<seq<int>, Rejection>)
    ensures r.Err? <==> step == 0
    ensures r.Err? ==> r.error == ZeroStep
  {
    if step == 0 then Err(ZeroStep) else Ok(Arithmetic(start, stop, step))
  }

  predicate Increasing(r: seq<int>) {
    forall i, j :: 0 <= i < j < |r| ==> r[i] < r[j]
  }

  function InsertSorted(r: seq<int>, x: int): (q: seq<int>)
    requires Increasing(r)
    ensures Increasing(q) && forall y :: y in q <==> y == x || y in r
  {
    if r == [] then [x]
    else if x < r[0] then [x] + r
    else if x == r[0] then r
    else
      IncreasingHead(r);
      var rest := InsertSorted(r[1..], x);
      assert forall y :: y in rest ==> r[0] < y;
      IncreasingCons(r[0], rest);
      [r[0]] + rest
  }

  /** A head below every element of an increasing tail gives an increasing list. */
  lemma IncreasingCons(h: int, t: seq<int>)
    requires Increasing(t) && forall y :: y in t ==> h < y
    ensures Increasing([h] + t)
  {
    var q := [h] + t;
    forall i, j | 0 <= i < j < |q| ensures q[i] < q[j] {
      assert q[j] == t[j - 1] && t[j - 1] in t;
      if i > 0 {
        assert q[i] == t[i - 1];
      }
    }
  }

  /** `sorted(set(values))`: strictly increasing, with exactly the elements of `values`. */
  function SortedSet(values: seq<int>): (r: seq<int>)
    ensures Increasing(r) && forall x :: x in r <==> x in values
  {
    if values == [] then [] else InsertSorted(SortedSet(values[1..]), values[0])
  }

  /** The head of an increasing list is its least element, and the tail holds all the others. */
  lemma IncreasingHead(a: seq<int>)
    requires Increasing(a) && a != []
    ensures Increasing(a[1..])
    ensures forall x :: x in a ==> a[0] <= x
    ensures forall x :: x in a[1..] <==> x in a && x != a[0]
  {
    forall x | x in a ensures a[0] <= x {
      var i :| 0 <= i < |a| && a[i] == x;
    }
    forall x | x in a && x != a[0] ensures x in a[1..] {
      var i :| 0 <= i < |a| && a[i] == x;
      assert a[1..][i - 1] == x;
    }
  }

  lemma SameMembersBothEmpty(a: seq<int>, b: seq<int>)
    requires forall x :: x in a <==> x in b
    ensures a == [] <==> b == []
  {
    if a != [] {
      var x := a[0];
      assert x in a;
      assert x in b;
    }
    if b != [] {
      var y := b[0];
      assert y in b;
      assert y in a;
    }
  }

  /** A strictly increasing list is fixed by its elements, so `SortedSet` is the only such list. */
  lemma {:induction false} IncreasingUnique(a: seq<int>, b: seq<int>)
    requires Increasing(a) && Increasing(b) && forall x :: x in a <==> x in b
    ensures a == b
  {
    SameMembersBothEmpty(a, b);
    if a != [] {
      IncreasingHead(a);
      IncreasingHead(b);
      assert a[0] in a && b[0] in b;
      assert a[0] == b[0];
      IncreasingUnique(a[1..], b[1..]);
      assert a == [a[0]] + a[1..] && b == [b[0]] + b[1..];
    }
  }

  /**
   * The sizes `add_range_sweep` sweeps over: `'log'` needs `num` and uses
   * the `np.logspace` points (given as `logPoints`), `'linear'` needs `step`
   * and uses `range(n_start, n_end + 1, step)`; any other range type is
   * refused. The list is then sorted and freed of duplicates.
   */
  function RangeValues(rangeType: string, nStart: int, nEnd: int, num: Option<int>, step: Option<int>,
                       logPoints: seq<int>): (r: Result<seq<int>, Rejection>)
    ensures rangeType == "log" && num.None? <==> r == Err(MissingNum)
    ensures rangeType == "linear" && step.None? <==> r == Err(MissingStep)
    ensures rangeType != "log" && rangeType != "linear" <==> r == Err(UnknownRangeType)
    ensures rangeType == "linear" && step == Some(0) <==> r == Err(ZeroStep)
    ensures r.Ok? ==> Increasing(r.value)
    ensures r.Ok? && rangeType == "log" ==> forall x :: x in r.value <==> x in logPoints
    ensures r.Ok? && rangeType == "linear" ==>
              forall x :: x in r.value <==> x in Arithmetic(nStart, nEnd + 1, step.value)
  {
    if rangeType == "log" then
      if num.None? then Err(MissingNum) else Ok(SortedSet(logPoints))
    else if rangeType == "linear" then
      if step.None? then Err(MissingStep)
      else
        var vals := PyRange(nStart, nEnd + 1, step.value);
        if vals.Err? then Err(vals.error) else Ok(SortedSet(vals.value))
    else Err(UnknownRangeType)
  }

  // ---------------------------------------------------------------- inspector

  /**
   * The defaults of a parameter list, as the dictionary comprehension of
   * `get_defaults` builds them (a later parameter of the same name wins).
   */
  function Defaults(ps: seq<Parameter>): map<string, DefaultValue> {
    if ps == [] then map[]
    else
      var m := Defaults(ps[1..]);
      var p := ps[0];
      if p.name != "self" && p.default.Some? && p.name !in m then m[p.name := p.default.value] else m
  }

  /** The defaults are exactly those of the parameters other than `self` that have one. */
  lemma {:induction false} DefaultsMeaning(ps: seq<Parameter>)
    ensures forall i :: 0 <= i < |ps| && ps[i].name != "self" && ps[i].default.Some? ==> ps[i].name in Defaults(ps)
    ensures forall k :: k in Defaults(ps) ==> k != "self" && k in Names(ps)
  {
    if ps != [] {
      DefaultsMeaning(ps[1..]);
      assert forall i :: 0 <= i < |ps| - 1 ==> ps[1..][i] == ps[i + 1];
      assert Names(ps) == [ps[0].name] + Names(ps[1..]);
    }
  }

  /** `AlgorithmInspector.get_defaults(algorithm)`: `ValueError` for an unknown algorithm. */
  function GetDefaults(reg: Registry, algorithm: string): (r: Result<map<string, DefaultValue>, Exception>)
    reads reg
    requires reg.Valid()
    ensures r.Err? <==> algorithm !in reg.classes
    ensures r.Err? ==> r.error == ValueError
  {
    if algorithm !in reg.Available() then Err(ValueError) else Ok(Defaults(Signature(reg.classes[algorithm])))
  }

  /** Only `u`, in DEGA_B and DEGA_Limit, has a default, and it is `None`. */
  lemma DefaultsOfAlgorithms(c: AlgorithmClass)
    ensures Defaults(Signature(c)) == if c == DegaB || c == DegaLimit then map["u" := NoneValue] else map[]
  {
    var ps := Signature(c);
    if c == DegaB || c == DegaLimit {
      assert ps == ps[..|ps| - 1] + [Parameter("u", Some(NoneValue))];
      DefaultsLastOnly(ps[..|ps| - 1], Parameter("u", Some(NoneValue)));
    } else {
      DefaultsNone(ps);
    }
  }

  /** A list in which no parameter has a default has no defaults. */
  lemma {:induction false} DefaultsNone(ps: seq<Parameter>)
    requires forall i :: 0 <= i < |ps| ==> ps[i].default.None?
    ensures Defaults(ps) == map[]
  {
    if ps != [] {
      assert forall i :: 0 <= i < |ps| - 1 ==> ps[1..][i] == ps[i + 1];
      DefaultsNone(ps[1..]);
    }
  }

  /** When only the last parameter has a default, that default is the only one. */
  lemma {:induction false} DefaultsLastOnly(ps: seq<Parameter>, last: Parameter)
    requires forall i :: 0 <= i < |ps| ==> ps[i].default.None?
    requires last.name != "self" && last.default.Some?
    ensures Defaults(ps + [last]) == map[last.name := last.default.value]
  {
    if ps == [] {
      assert [] + [last] == [last];
      assert [last][1..] == [];
    } else {
      assert (ps + [last])[1..] == ps[1..] + [last];
      assert forall i :: 0 <= i < |ps| - 1 ==> ps[1..][i] == ps[i + 1];
      DefaultsLastOnly(ps[1..], last);
    }
  }

  // ---------------------------------------------------------------- the builder

  /** Every job's description names its own algorithm and size. */
  predicate AllDescribed(js: seq<SuiteJob>) {
    forall i :: 0 <= i < |js| ==> Describes(js[i].description, js[i].algorithm, js[i].n)
  }

  lemma AllDescribedAfterSweep(js: seq<SuiteJob>, p: Plan, nValues: seq<int>)
    requires AllDescribed(js)
    ensures AllDescribed(js + Sweep(p, nValues))
  {
    SweepOnePerSize(p, nValues);
    var all := js + Sweep(p, nValues);
    forall i | 0 <= i < |all| ensures Describes(all[i].description, all[i].algorithm, all[i].n) {
      if i >= |js| {
        assert all[i] == Sweep(p, nValues)[i - |js|];
      }
    }
  }

  class JobSuiteBuilder {
    /** `self._jobs`. */
    var jobs: seq<SuiteJob>

    ghost predicate Valid()
      reads this
    {
      AllDescribed(jobs)
    }

    constructor ()
      ensures Valid() && jobs == []
    {
      jobs := [];
    }

    /** The loop over `algo_args` that looks for a key the constructor does not take. */
    static method CheckParameters(keys: seq<string>, valid: set<string>) returns (bad: Option<string>)
      ensures bad == FirstInvalid(keys, valid)
    {
      var i := 0;
      while i < |keys|
        invariant 0 <= i <= |keys|
        invariant FirstInvalid(keys[i..], valid) == FirstInvalid(keys, valid)
      {
        assert keys[i..][1..] == keys[i + 1..];
        if keys[i] !in valid {
          return Some(keys[i]);
        }
        i := i + 1;
      }
      return None;
    }

    /** The loop over the constructor's parameters that fills `resolved_args`. */
    static method ResolveArguments(ps: seq<Parameter>, args: seq<(string, ArgValue)>, n: int)
      returns (resolved: seq<(string, int)>)
      ensures resolved == ResolveArgs(ps, args, n)
    {
      resolved := [];
      var i := |ps|;
      while i > 0
        invariant 0 <= i <= |ps|
        invariant resolved == ResolveArgs(ps[i..], args, n)
      {
        i := i - 1;
        var name := ps[i].name;
        assert ps[i..][1..] == ps[i + 1..];
        if name == "self" {
        } else if name == "n" {
          resolved := [("n", n)] + resolved;
        } else if name in Keys(args) {
          var raw := Lookup(args, name).value;
          resolved := [(name, Evaluate(raw, n))] + resolved;
        }
      }
      assert ps[0..] == ps;
    }

    /** The loop over `algo_args` that builds `parts`. */
    static method DescribeArguments(args: seq<(string, ArgValue)>, descriptions: map<string, string>, n: int,
                                    budgetDesc: Option<string>) returns (parts: seq<string>)
      ensures parts == Parts(args, descriptions, n, budgetDesc)
    {
      parts := ["n=" + IntToString(n)];
      var i := 0;
      while i < |args|
        invariant 0 <= i <= |args|
        invariant parts == ["n=" + IntToString(n)] + ArgParts(args[..i], descriptions)
      {
        var (k, v) := args[i];
        ArgPartsStep(args, descriptions, i);
        parts := parts + [ArgPart(k, v, descriptions)];
        i := i + 1;
      }
      assert args[..|args|] == args;
      if Truthy(budgetDesc) {
        parts := parts + ["budget=" + budgetDesc.value];
      }
    }

    /** The checks at the start of `add_sweep`, in their order. */
    static method CheckSweep(reg: Registry, bms: Benchmarks.Registry, algorithm: string, argKeys: seq<string>,
                             benchmark: string) returns (r: Option<Rejection>)
      requires reg.Valid() && bms.Valid()
      ensures r == Validate(reg, bms, algorithm, argKeys, benchmark)
    {
      if algorithm !in reg.Available() {
        return Some(UnknownAlgorithm);
      }
      if benchmark !in bms.Keys() {
        return Some(UnknownBenchmark);
      }
      var bad := CheckParameters(argKeys, ValidParameters(Signature(reg.classes[algorithm])));
      if bad.Some? {
        return Some(UnknownParameter(bad.value));
      }
      return None;
    }

    /** The body of the loop over `n_values`: the job for size `n`. */
    static method BuildJob(p: Plan, n: int) returns (job: SuiteJob)
      ensures job == MakeJob(p, n)
    {
      var resolved := ResolveArguments(Signature(p.cls), p.args, n);
      var (maxEvals, budgetDesc) := ResolveBudget(p.budgetFn, p.budget, p.budgetDescription, n);
      var parts := DescribeArguments(p.args, p.descriptions, n, budgetDesc);
      job := SuiteJob(p.algorithm, resolved, p.benchmark, n, p.reps, maxEvals, budgetDesc,
                      Description(p.algorithm, parts));
    }

    /**
     * `add_sweep`: a refused sweep leaves the jobs as they were; an accepted
     * one appends exactly one job per element of `n_values`, in order.
     */
    method AddSweep(reg: Registry, bms: Benchmarks.Registry, algorithm: string, args: seq<(string, ArgValue)>,
                    benchmark: string, nValues: seq<int>, reps: int, budget: Option<Budget>,
                    descriptions: map<string, string>, budgetDescription: Option<string>)
      returns (r: Option<Rejection>)
      requires Valid() && reg.Valid() && bms.Valid()
      modifies this
      ensures Valid()
      ensures r == Validate(reg, bms, algorithm, Keys(args), benchmark)
      ensures r.Some? ==> jobs == old(jobs)
      ensures r.None? ==>
                jobs == old(jobs) + Sweep(PlanOf(reg, bms, algorithm, args, benchmark, reps, budget, descriptions,
                                                 budgetDescription), nValues)
    {
      r := CheckSweep(reg, bms, algorithm, Keys(args), benchmark);
      if r.Some? {
        return;
      }
      var plan := Plan(algorithm, reg.classes[algorithm], args, benchmark, bms.Get(benchmark).value.budgetFn, reps,
                       budget, descriptions, budgetDescription);
      ghost var before := jobs;
      AppendSweep(plan, nValues);
      AllDescribedAfterSweep(before, plan, nValues);
    }

    /** The loop over `n_values` of an accepted sweep, appending one job per size. */
    method AppendSweep(plan: Plan, nValues: seq<int>)
      modifies this
      ensures jobs == old(jobs) + Sweep(plan, nValues)
    {
      ghost var before := jobs;
      var i := 0;
      while i < |nValues|
        invariant 0 <= i <= |nValues|
        invariant jobs == before + Sweep(plan, nValues[..i])
      {
        var job := BuildJob(plan, nValues[i]);
        AppendStep(before, jobs, plan, nValues, i, job);
        jobs := jobs + [job];
        i := i + 1;
      }
      assert nValues[..|nValues|] == nValues;
    }

    /** `add_linear_sweep`: the sizes `range(n_start, n_end + 1, step)`; a zero step is refused first. */
    method AddLinearSweep(reg: Registry, bms: Benchmarks.Registry, algorithm: string, args: seq<(string, ArgValue)>,
                          benchmark: string, nStart: int, nEnd: int, step: int, reps: int, budget: Option<Budget>,
                          descriptions: map<string, string>, budgetDescription: Option<string>)
      returns (r: Option<Rejection>)
      requires Valid() && reg.Valid() && bms.Valid()
      modifies this
      ensures Valid()
      ensures step == 0 ==> r == Some(ZeroStep) && jobs == old(jobs)
      ensures step != 0 ==> r == Validate(reg, bms, algorithm, Keys(args), benchmark)
      ensures step != 0 && r.Some? ==> jobs == old(jobs)
      ensures step != 0 && r.None? ==>
                jobs == old(jobs) + Sweep(PlanOf(reg, bms, algorithm, args, benchmark, reps, budget, descriptions,
                                                 budgetDescription), Arithmetic(nStart, nEnd + 1, step))
    {
      var nVals := PyRange(nStart, nEnd + 1, step);
      if nVals.Err? {
        return Some(nVals.error);
      }
      r := AddSweep(reg, bms, algorithm, args, benchmark, nVals.value, reps, budget, descriptions, budgetDescription);
    }

    /** `add_log_sweep`, with the `np.logspace` points given as `logPoints`; they are sorted and de-duplicated. */
    method AddLogSweep(reg: Registry, bms: Benchmarks.Registry, algorithm: string, args: seq<(string, ArgValue)>,
                       benchmark: string, logPoints: seq<int>, reps: int, budget: Option<Budget>,
                       descriptions: map<string, string>, budgetDescription: Option<string>)
      returns (r: Option<Rejection>)
      requires Valid() && reg.Valid() && bms.Valid()
      modifies this
      ensures Valid()
      ensures r == Validate(reg, bms, algorithm, Keys(args), benchmark)
      ensures r.Some? ==> jobs == old(jobs)
      ensures r.None? ==>
                jobs == old(jobs) + Sweep(PlanOf(reg, bms, algorithm, args, benchmark, reps, budget, descriptions,
                                                 budgetDescription), SortedSet(logPoints))
    {
      r := AddSweep(reg, bms, algorithm, args, benchmark, SortedSet(logPoints), reps, budget, descriptions,
                    budgetDescription);
    }

    /** `add_range_sweep`: the range checks come before those of `add_sweep`. */
    method AddRangeSweep(reg: Registry, bms: Benchmarks.Registry, algorithm: string, args: seq<(string, ArgValue)>,
                         benchmark: string, nStart: int, nEnd: int, rangeType: string, num: Option<int>,
                         step: Option<int>, logPoints: seq<int>, reps: int, budget: Option<Budget>,
                         descriptions: map<string, string>, budgetDescription: Option<string>)
      returns (r: Option<Rejection>)
      requires Valid() && reg.Valid() && bms.Valid()
      modifies this
      ensures Valid()
      ensures var vals := RangeValues(rangeType, nStart, nEnd, num, step, logPoints);
              && (vals.Err? ==> r == Some(vals.error) && jobs == old(jobs))
              && (vals.Ok? ==> r == Validate(reg, bms, algorithm, Keys(args), benchmark))
              && (vals.Ok? && r.Some? ==> jobs == old(jobs))
              && (vals.Ok? && r.None? ==>
                    jobs == old(jobs) + Sweep(PlanOf(reg, bms, algorithm, args, benchmark, reps, budget, descriptions,
                                                     budgetDescription), vals.value))
    {
      var vals := RangeValues(rangeType, nStart, nEnd, num, step, logPoints);
      if vals.Err? {
        return Some(vals.error);
      }
      r := AddSweep(reg, bms, algorithm, args, benchmark, vals.value, reps, budget, descriptions, budgetDescription);
    }

    /** `jobs()`: the built jobs, each described by its own algorithm and size. */
    function Jobs(): (js: seq<SuiteJob>)
      reads this
      requires Valid()
      ensures forall i :: 0 <= i < |js| ==> Describes(js[i].description, js[i].algorithm, js[i].n)
    {
      jobs
    }
  }

  // ---------------------------------------------------------------- reading a written file back

  /** The entry `load_from_file` reads for a job that `write` put in the file. */
  function AsEntry(j: SuiteJob): Arguments.Entry {
    Arguments.Entry(Some(j.algorithm), Some(j.algoArgs), Some(j.benchmark), Some(j.n), Some(j.reps),
                    Some(j.description), Some(j.maxEvals), j.budgetDescription)
  }

  /** A job written by the builder is read back unchanged, its budget override included. */
  lemma WrittenJobLoadsBack(bms: Benchmarks.Registry, j: SuiteJob)
    requires bms.Valid() && j.benchmark in bms.entries
    ensures Arguments.ConvertEntry(bms, AsEntry(j))
            == Ok(Arguments.Job(Some(j.algorithm), j.algoArgs, j.benchmark, j.n, j.reps, j.description,
                                j.maxEvals, j.budgetDescription))
  {
  }
}
