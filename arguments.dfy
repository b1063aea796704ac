/**
 * Loading a job file (src/simulation/arguments.py): every entry of the
 * file's `"jobs"` list becomes a `Job` record, with defaults for the
 * optional fields and the benchmark's own budget when none is given.
 */
module Arguments {
  import opened Wrappers
  import Benchmarks

  /** One entry of the `"jobs"` list; `None` is a key the entry does not have. */
  datatype Entry = Entry(algorithm: Option<string>, algoArgs: Option<seq<(string, int)>>, benchmark: Option<string>,
                         n: Option<int>, reps: Option<int>, description: Option<string>,
                         maxEvals: Option<int>, budgetDescription: Option<string>)

  /** The `Job` record; `algo_args` keeps the file's key order. */
  datatype Job = Job(algorithm: Option<string>, algoArgs: seq<(string, int)>, benchmarkKey: string, n: int,
                     reps: int, description: string, maxEvals: int, budgetDescription: Option<string>)

  function GetOr<T>(o: Option<T>, default: T): T {
    if o.Some? then o.value else default
  }

  /**
   * The body of the loop of `load_from_file` for one entry. An unknown or
   * missing benchmark is a `ValueError`, checked first; a missing `n` makes
   * `int(None)` raise `TypeError`.
   */
  function ConvertEntry(bms: Benchmarks.Registry, e: Entry): (r: Result<Job, Exception>)
    reads bms
    requires bms.Valid()
    ensures r.Err? && r.error == ValueError <==> !(e.benchmark.Some? && e.benchmark.value in bms.Keys())
    ensures r.Err? && r.error == TypeError <==> e.benchmark.Some? && e.benchmark.value in bms.Keys() && e.n.None?
    ensures r.Ok? ==> r.value.benchmarkKey == e.benchmark.value && r.value.n == e.n.value
                      && r.value.algorithm == e.algorithm
  {
    if e.benchmark.None? || e.benchmark.value !in bms.Keys() then Err(ValueError)
    else if e.n.None? then Err(TypeError)
    else
      var key := e.benchmark.value;
      var n := e.n.value;
      var (maxEvals, budgetDescription) :=
        if e.maxEvals.Some? then (e.maxEvals.value, e.budgetDescription)
        else (bms.Get(key).value.budgetFn(n), None);
      Ok(Job(e.algorithm, GetOr(e.algoArgs, []), key, n, GetOr(e.reps, 1), GetOr(e.description, ""),
             maxEvals, budgetDescription))
  }

  /**
   * The optional fields: `reps` defaults to 1, `description` to "" and
   * `algo_args` to `{}`; a given `max_evals` comes with the entry's own
   * `budget_description`, otherwise the benchmark's budget at `n` is used
   * and the budget description is `None`.
   */
  lemma ConvertEntryDefaults(bms: Benchmarks.Registry, e: Entry)
    requires bms.Valid()
    requires ConvertEntry(bms, e).Ok?
    ensures var j := ConvertEntry(bms, e).value;
            && j.reps == (if e.reps.Some? then e.reps.value else 1)
            && j.description == (if e.description.Some? then e.description.value else "")
            && j.algoArgs == (if e.algoArgs.Some? then e.algoArgs.value else [])
            && (e.maxEvals.Some? ==> j.maxEvals == e.maxEvals.value && j.budgetDescription == e.budgetDescription)
            && (e.maxEvals.None? ==>
                  j.maxEvals == bms.entries[j.benchmarkKey].budgetFn(j.n) && j.budgetDescription.None?)
  {
  }

  /**
   * `Arguments.load_from_file` once the file is parsed: `jobs` is the
   * `"jobs"` list, `None` when the key is missing (then there are no jobs).
   * On success there is one job per entry, in order; otherwise the error is
   * that of the first entry that fails.
   */
  method LoadFromFile(bms: Benchmarks.Registry, jobs: Option<seq<Entry>>) returns (r: Result<seq<Job>, Exception>)
    requires bms.Valid()
    ensures var entries := GetOr(jobs, []);
            r.Ok? ==> |r.value| == |entries| && forall i :: 0 <= i < |entries| ==> ConvertEntry(bms, entries[i]) == Ok(r.value[i])
    ensures var entries := GetOr(jobs, []);
            r.Err? ==> exists i :: 0 <= i < |entries| && ConvertEntry(bms, entries[i]) == Err(r.error)
                                   && forall j :: 0 <= j < i ==> ConvertEntry(bms, entries[j]).Ok?
  {
    var entries := GetOr(jobs, []);
    var loaded: seq<Job> := [];
    var i := 0;
    while i < |entries|
      invariant 0 <= i <= |entries| && |loaded| == i
      invariant forall j :: 0 <= j < i ==> ConvertEntry(bms, entries[j]) == Ok(loaded[j])
    {
      var job := ConvertEntry(bms, entries[i]);
      if job.Err? {
        return Err(job.error);
      }
      loaded := loaded + [job.value];
      i := i + 1;
    }
    return Ok(loaded);
  }
}
