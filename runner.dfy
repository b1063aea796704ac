/**
 * The cache-aware job runner (src/simulation/runner.py). A job is a
 * dictionary of values; its result file lives at
 * `root/<algorithm>/<benchmark_name>/<key>.npz`, where the key is a digest
 * of every entry but `problem`. `run_jobs` splits the jobs into cached ones
 * and ones to run, groups the latter by algorithm, runs them and merges
 * the statuses; `_run_single` performs the repetitions of one job and
 * writes its results to that same path.
 */
module Runner {
  import opened Wrappers

  /**
   * A job entry: a string, an integer, `None`, or any other object, which
   * `json.dumps` may or may not be able to serialise.
   */
  datatype Value = Str(s: string) | Num(i: int) | Null | Other(jsonable: bool)

  type Job = map<string, Value>

  /** A file-system path as its list of components. */
  type Path = seq<string>

  /** Python truthiness of `run_name`. */
  predicate Named(runName: Option<string>) {
    runName.Some? && runName.value != ""
  }

  /** `_data_root`: results sit under `data_dir`, one level deeper exactly when the run is named. */
  function DataRoot(dataDir: Path, runName: Option<string>): (root: Path)
    ensures |root| == |dataDir| + (if Named(runName) then 1 else 0)
    ensures root[..|dataDir|] == dataDir
    ensures Named(runName) ==> root[|dataDir|] == runName.value
  {
    if Named(runName) then dataDir + [runName.value] else dataDir
  }

  // ---------------------------------------------------------------- keys and paths

  /** The entries `_job_key` serialises: all of the job but `problem`. */
  function Hashed(job: Job): (m: Job)
    ensures forall k :: k in m <==> k in job && k != "problem"
    ensures forall k :: k in m ==> m[k] == job[k]
  {
    map k | k in job && k != "problem" :: job[k]
  }

  /** `_job_key`: the digest of the serialised entries; `digest` stands for md5 of the sorted JSON text. */
  function JobKey(digest: Job -> string, job: Job): string {
    digest(Hashed(job))
  }

  /** Two jobs that differ at most in `problem` get the same key. */
  lemma JobKeyIgnoresProblem(digest: Job -> string, a: Job, b: Job)
    requires forall k :: k != "problem" ==> (k in a <==> k in b)
    requires forall k :: k in a && k != "problem" ==> a[k] == b[k]
    ensures JobKey(digest, a) == JobKey(digest, b)
  {
    assert Hashed(a) == Hashed(b);
  }

  /** `root / job[k]`: `KeyError` when the entry is missing, `TypeError` when it is not a string. */
  function Component(job: Job, k: string): (r: Result<string, Exception>)
    ensures r.Ok? <==> k in job && job[k].Str?
    ensures r.Ok? ==> r.value == job[k].s
    ensures r.Err? ==> (r.error == KeyError <==> k !in job) && (r.error == KeyError || r.error == TypeError)
  {
    if k !in job then Err(KeyError)
    else if !job[k].Str? then Err(TypeError)
    else Ok(job[k].s)
  }

  /** `_result_path(job, key)`: `root/<algorithm>/<benchmark_name>/<key>.npz`, the algorithm looked up first. */
  function ResultPath(root: Path, job: Job, key: string): (r: Result<Path, Exception>)
    ensures r.Ok? <==> Component(job, "algorithm").Ok? && Component(job, "benchmark_name").Ok?
    ensures r.Ok? ==> |r.value| == |root| + 3 && r.value[..|root|] == root
                      && r.value[|root|] == job["algorithm"].s && r.value[|root| + 1] == job["benchmark_name"].s
                      && r.value[|root| + 2] == key + ".npz"
    ensures Component(job, "algorithm").Err? ==> r == Err(Component(job, "algorithm").error)
    ensures Component(job, "algorithm").Ok? && Component(job, "benchmark_name").Err? ==>
              r == Err(Component(job, "benchmark_name").error)
  {
    match Component(job, "algorithm")
    case Err(e) => Err(e)
    case Ok(algorithm) =>
      match Component(job, "benchmark_name")
      case Err(e) => Err(e)
      case Ok(benchmark) => Ok(root + [algorithm, benchmark, key + ".npz"])
  }

  /** The path `run_jobs` checks for a job. */
  function CheckedPath(root: Path, digest: Job -> string, job: Job): Result<Path, Exception> {
    ResultPath(root, job, JobKey(digest, job))
  }

  // ---------------------------------------------------------------- the cache partition

  /** A job to run, with its algorithm name and result path. */
  datatype Task = Task(job: Job, algorithm: string, path: Path)

  /** An entry of the returned list: `(job, status, path or None)`. */
  datatype Status = Status(job: Job, status: string, path: Option<Path>)

  /** The first loop of `run_jobs` over `jobs`: the cached statuses and the jobs to run, or the first error. */
  function Partition(root: Path, digest: Job -> string, jobs: seq<Job>, force: bool, present: Path -> bool)
    : Result<(seq<Status>, seq<Task>), Exception>
  {
    if jobs == [] then Ok(([], []))
    else
      match Partition(root, digest, jobs[..|jobs| - 1], force, present)
      case Err(e) => Err(e)
      case Ok((cached, toRun)) =>
        var job := jobs[|jobs| - 1];
        match CheckedPath(root, digest, job)
        case Err(e) => Err(e)
        case Ok(path) =>
          if !force && present(path) then Ok((cached + [Status(job, "cached", Some(path))], toRun))
          else Ok((cached, toRun + [Task(job, job["algorithm"].s, path)]))
  }

  function JobsOf(ss: seq<Status>): (js: seq<Job>)
    ensures |js| == |ss| && forall i :: 0 <= i < |ss| ==> js[i] == ss[i].job
  {
    seq(|ss|, i requires 0 <= i < |ss| => ss[i].job)
  }

  function TaskJobs(ts: seq<Task>): (js: seq<Job>)
    ensures |js| == |ts| && forall i :: 0 <= i < |ts| ==> js[i] == ts[i].job
  {
    seq(|ts|, i requires 0 <= i < |ts| => ts[i].job)
  }

  /** The partition fails exactly when some job has no result path, and then with the first such error. */
  lemma {:induction false} PartitionFails(root: Path, digest: Job -> string, jobs: seq<Job>, force: bool,
                                          present: Path -> bool)
    ensures var p := Partition(root, digest, jobs, force, present);
            && (p.Ok? <==> forall i :: 0 <= i < |jobs| ==> CheckedPath(root, digest, jobs[i]).Ok?)
            && (p.Err? ==> exists i :: 0 <= i < |jobs| && CheckedPath(root, digest, jobs[i]) == Err(p.error)
                                       && forall j :: 0 <= j < i ==> CheckedPath(root, digest, jobs[j]).Ok?)
  {
    if jobs != [] {
      var front := jobs[..|jobs| - 1];
      PartitionFails(root, digest, front, force, present);
      assert forall i :: 0 <= i < |front| ==> front[i] == jobs[i];
    }
  }

  /** A cached status: only without `force`, carrying the job's checked path, which exists. */
  predicate CachedWell(root: Path, digest: Job -> string, force: bool, present: Path -> bool, s: Status) {
    && s.status == "cached" && !force && s.path.Some?
    && CheckedPath(root, digest, s.job) == Ok(s.path.value) && present(s.path.value)
  }

  /** A job to run: its checked path and algorithm, and the path was missing or `force` is on. */
  predicate PendingWell(root: Path, digest: Job -> string, force: bool, present: Path -> bool, t: Task) {
    && CheckedPath(root, digest, t.job) == Ok(t.path)
    && "algorithm" in t.job && t.job["algorithm"] == Str(t.algorithm)
    && (force || !present(t.path))
  }

  /** One step of the partition, when the prefix and the last job's path both succeed. */
  lemma PartitionStep(root: Path, digest: Job -> string, jobs: seq<Job>, force: bool, present: Path -> bool)
    requires jobs != [] && Partition(root, digest, jobs, force, present).Ok?
    ensures var front := jobs[..|jobs| - 1];
            var job := jobs[|jobs| - 1];
            && Partition(root, digest, front, force, present).Ok?
            && CheckedPath(root, digest, job).Ok?
            && var (c0, t0) := Partition(root, digest, front, force, present).value;
               var path := CheckedPath(root, digest, job).value;
               Partition(root, digest, jobs, force, present).value
               == if !force && present(path) then (c0 + [Status(job, "cached", Some(path))], t0)
                  else (c0, t0 + [Task(job, job["algorithm"].s, path)])
  {
  }

  /**
   * A job is cached exactly when `force` is off and its path exists; the
   * cached statuses carry that path, and the jobs to run keep their own
   * path and algorithm.
   */
  lemma {:induction false} PartitionSplits(root: Path, digest: Job -> string, jobs: seq<Job>, force: bool,
                                           present: Path -> bool)
    requires Partition(root, digest, jobs, force, present).Ok?
    ensures var (cached, toRun) := Partition(root, digest, jobs, force, present).value;
            && (forall i :: 0 <= i < |cached| ==> CachedWell(root, digest, force, present, cached[i]))
            && (forall i :: 0 <= i < |toRun| ==> PendingWell(root, digest, force, present, toRun[i]))
  {
    if jobs != [] {
      PartitionStep(root, digest, jobs, force, present);
      PartitionSplits(root, digest, jobs[..|jobs| - 1], force, present);
    }
  }

  /** Every input job lands on exactly one side of the partition. */
  lemma {:induction false} PartitionKeepsJobs(root: Path, digest: Job -> string, jobs: seq<Job>, force: bool,
                                              present: Path -> bool)
    requires Partition(root, digest, jobs, force, present).Ok?
    ensures multiset(JobsOf(Partition(root, digest, jobs, force, present).value.0))
            + multiset(TaskJobs(Partition(root, digest, jobs, force, present).value.1)) == multiset(jobs)
  {
    if jobs != [] {
      var front := jobs[..|jobs| - 1];
      var job := jobs[|jobs| - 1];
      PartitionStep(root, digest, jobs, force, present);
      PartitionKeepsJobs(root, digest, front, force, present);
      LastSplit(jobs);
      var c0 := Partition(root, digest, front, force, present).value.0;
      var t0 := Partition(root, digest, front, force, present).value.1;
      var r := Partition(root, digest, jobs, force, present).value;
      var path := CheckedPath(root, digest, job).value;
      if !force && present(path) {
        assert r == (c0 + [Status(job, "cached", Some(path))], t0);
        JobsOfSnoc(c0, Status(job, "cached", Some(path)));
      } else {
        assert r == (c0, t0 + [Task(job, job["algorithm"].s, path)]);
        TaskJobsSnoc(t0, Task(job, job["algorithm"].s, path));
      }
    }
  }

  lemma LastSplit(jobs: seq<Job>)
    requires jobs != []
    ensures multiset(jobs) == multiset(jobs[..|jobs| - 1]) + multiset{jobs[|jobs| - 1]}
  {
    assert jobs == jobs[..|jobs| - 1] + [jobs[|jobs| - 1]];
  }

  lemma JobsOfSnoc(ss: seq<Status>, s: Status)
    ensures multiset(JobsOf(ss + [s])) == multiset(JobsOf(ss)) + multiset{s.job}
  {
    assert JobsOf(ss + [s]) == JobsOf(ss) + [s.job];
  }

  lemma TaskJobsSnoc(ts: seq<Task>, t: Task)
    ensures multiset(TaskJobs(ts + [t])) == multiset(TaskJobs(ts)) + multiset{t.job}
  {
    assert TaskJobs(ts + [t]) == TaskJobs(ts) + [t.job];
  }

  /** With `force` nothing is cached. */
  lemma ForceCachesNothing(root: Path, digest: Job -> string, jobs: seq<Job>, present: Path -> bool)
    requires Partition(root, digest, jobs, true, present).Ok?
    ensures Partition(root, digest, jobs, true, present).value.0 == []
  {
    PartitionSplits(root, digest, jobs, true, present);
  }

  /** An error in a prefix of the jobs is the error of the whole partition. */
  lemma {:induction false} PartitionErrorSticks(root: Path, digest: Job -> string, jobs: seq<Job>, i: nat,
                                                force: bool, present: Path -> bool)
    requires i <= |jobs| && Partition(root, digest, jobs[..i], force, present).Err?
    ensures Partition(root, digest, jobs, force, present) == Partition(root, digest, jobs[..i], force, present)
    decreases |jobs| - i
  {
    if i < |jobs| {
      assert jobs[..i + 1][..i] == jobs[..i];
      PartitionErrorSticks(root, digest, jobs, i + 1, force, present);
    } else {
      assert jobs[..i] == jobs;
    }
  }

  // ---------------------------------------------------------------- grouping by algorithm

  /** One entry of `alg_groups`: an algorithm and its jobs in arrival order. */
  datatype Group = Group(algorithm: string, tasks: seq<Task>)

  function Algorithms(groups: seq<Group>): (r: seq<string>)
    ensures |r| == |groups| && forall i :: 0 <= i < |groups| ==> r[i] == groups[i].algorithm
  {
    seq(|groups|, i requires 0 <= i < |groups| => groups[i].algorithm)
  }

  /** The position of an algorithm's group, if it has one. */
  function Find(groups: seq<Group>, algorithm: string): (r: Option<nat>)
    ensures r.Some? ==> r.value < |groups| && groups[r.value].algorithm == algorithm
    ensures r.None? ==> forall i :: 0 <= i < |groups| ==> groups[i].algorithm != algorithm
  {
    if groups == [] then None
    else if groups[0].algorithm == algorithm then Some(0)
    else match Find(groups[1..], algorithm)
      case None => None
      case Some(j) => Some(j + 1)
  }

  /** `alg_groups.setdefault(job["algorithm"], []).append((job, path))`. */
  function AddToGroup(groups: seq<Group>, t: Task): seq<Group> {
    match Find(groups, t.algorithm)
    case Some(j) => groups[j := groups[j].(tasks := groups[j].tasks + [t])]
    case None => groups + [Group(t.algorithm, [t])]
  }

  /** `alg_groups` after the grouping loop over `tasks`. */
  function GroupAll(tasks: seq<Task>): seq<Group> {
    if tasks == [] then [] else AddToGroup(GroupAll(tasks[..|tasks| - 1]), tasks[|tasks| - 1])
  }

  /** The submission order of the futures: group after group, each in arrival order. */
  function Flatten(groups: seq<Group>): seq<Task> {
    if groups == [] then [] else groups[0].tasks + Flatten(groups[1..])
  }

  lemma {:induction false} FlattenAppend(groups: seq<Group>, g: Group)
    ensures Flatten(groups + [g]) == Flatten(groups) + g.tasks
  {
    if groups != [] {
      assert (groups + [g])[1..] == groups[1..] + [g];
      FlattenAppend(groups[1..], g);
    }
  }

  lemma {:induction false} FlattenExtend(groups: seq<Group>, j: nat, t: Task)
    requires j < |groups|
    ensures multiset(Flatten(groups[j := groups[j].(tasks := groups[j].tasks + [t])]))
            == multiset(Flatten(groups)) + multiset{t}
  {
    var updated := groups[j := groups[j].(tasks := groups[j].tasks + [t])];
    if j > 0 {
      assert updated[1..] == groups[1..][j - 1 := groups[j].(tasks := groups[j].tasks + [t])];
      FlattenExtend(groups[1..], j - 1, t);
    } else {
      assert updated[1..] == groups[1..];
    }
  }

  /** Every task ends up in the submission order exactly once. */
  lemma {:induction false} GroupsCoverTasks(tasks: seq<Task>)
    ensures multiset(Flatten(GroupAll(tasks))) == multiset(tasks)
  {
    if tasks != [] {
      var front := tasks[..|tasks| - 1];
      var t := tasks[|tasks| - 1];
      GroupsCoverTasks(front);
      assert tasks == front + [t];
      var groups := GroupAll(front);
      match Find(groups, t.algorithm)
      case Some(j) => FlattenExtend(groups, j, t);
      case None => FlattenAppend(groups, Group(t.algorithm, [t]));
    }
  }

  lemma {:induction false} FlattenExtendJobs(groups: seq<Group>, j: nat, t: Task)
    requires j < |groups|
    ensures multiset(TaskJobs(Flatten(groups[j := groups[j].(tasks := groups[j].tasks + [t])])))
            == multiset(TaskJobs(Flatten(groups))) + multiset{t.job}
  {
    var updated := groups[j := groups[j].(tasks := groups[j].tasks + [t])];
    TaskJobsAppend(groups[0].tasks, Flatten(groups[1..]));
    TaskJobsAppend(updated[0].tasks, Flatten(updated[1..]));
    if j > 0 {
      assert updated[1..] == groups[1..][j - 1 := groups[j].(tasks := groups[j].tasks + [t])];
      FlattenExtendJobs(groups[1..], j - 1, t);
    } else {
      assert updated[1..] == groups[1..];
      TaskJobsAppend(groups[0].tasks, [t]);
    }
  }

  /** Every task's job ends up in the submission order exactly once. */
  lemma {:induction false} GroupsCoverJobs(tasks: seq<Task>)
    ensures multiset(TaskJobs(Flatten(GroupAll(tasks)))) == multiset(TaskJobs(tasks))
  {
    if tasks != [] {
      var front := tasks[..|tasks| - 1];
      var t := tasks[|tasks| - 1];
      GroupsCoverJobs(front);
      assert tasks == front + [t];
      TaskJobsAppend(front, [t]);
      var groups := GroupAll(front);
      match Find(groups, t.algorithm)
      case Some(j) => FlattenExtendJobs(groups, j, t);
      case None =>
        FlattenAppend(groups, Group(t.algorithm, [t]));
        TaskJobsAppend(Flatten(groups), [t]);
    }
  }

  /** The groups are keyed by distinct algorithms, are not empty, and hold only jobs of their own algorithm. */
  lemma {:induction false} GroupsByAlgorithm(tasks: seq<Task>)
    ensures var groups := GroupAll(tasks);
            && Distinct(Algorithms(groups))
            && (forall i :: 0 <= i < |groups| ==> groups[i].tasks != [])
            && (forall i, k :: 0 <= i < |groups| && 0 <= k < |groups[i].tasks| ==>
                  groups[i].tasks[k].algorithm == groups[i].algorithm)
  {
    if tasks != [] {
      var front := tasks[..|tasks| - 1];
      var t := tasks[|tasks| - 1];
      GroupsByAlgorithm(front);
      var before := GroupAll(front);
      var groups := GroupAll(tasks);
      match Find(before, t.algorithm)
      case Some(j) =>
        assert Algorithms(groups) == Algorithms(before);
        forall i, k | 0 <= i < |groups| && 0 <= k < |groups[i].tasks|
          ensures groups[i].tasks[k].algorithm == groups[i].algorithm
        {
          if i == j && k == |before[j].tasks| {
            assert groups[i].tasks[k] == t;
          } else if i == j {
            assert groups[i].tasks[k] == before[j].tasks[k];
          }
        }
      case None =>
        assert Algorithms(groups) == Algorithms(before) + [t.algorithm];
    }
  }

  // ---------------------------------------------------------------- statuses

  /** The outcome of `fut.result()`: success, or an exception with its `repr`. */
  datatype Outcome = Succeeded | Raised(repr: string)

  /** The status of one finished task. */
  function Settled(t: Task, o: Outcome): Status {
    match o
    case Succeeded => Status(t.job, "success", Some(t.path))
    case Raised(repr) => Status(t.job, "failed:" + repr, None)
  }

  function SettleAll(tasks: seq<Task>, outcome: Task -> Outcome): (ss: seq<Status>)
    ensures |ss| == |tasks| && forall i :: 0 <= i < |tasks| ==> ss[i] == Settled(tasks[i], outcome(tasks[i]))
  {
    seq(|tasks|, i requires 0 <= i < |tasks| => Settled(tasks[i], outcome(tasks[i])))
  }

  /**
   * What `run_jobs` returns: the first path error, or the cached statuses
   * followed by one status per task when there is something to run.
   */
  function RunJobsSpec(root: Path, digest: Job -> string, jobs: seq<Job>, force: bool, present: Path -> bool,
                       outcome: Task -> Outcome): Result<seq<Status>, Exception>
  {
    match Partition(root, digest, jobs, force, present)
    case Err(e) => Err(e)
    case Ok((cached, toRun)) =>
      if toRun == [] then Ok(cached) else Ok(cached + SettleAll(Flatten(GroupAll(toRun)), outcome))
  }

  /** The status is "failed:" followed by the exception's `repr`. */
  predicate IsFailure(s: string) {
    |s| >= 7 && s[..7] == "failed:"
  }

  lemma TaskJobsAppend(a: seq<Task>, b: seq<Task>)
    ensures TaskJobs(a + b) == TaskJobs(a) + TaskJobs(b)
  {
  }

  lemma SettledJobs(cached: seq<Status>, ran: seq<Task>, outcome: Task -> Outcome)
    ensures JobsOf(cached + SettleAll(ran, outcome)) == JobsOf(cached) + TaskJobs(ran)
  {
  }

  /** Every input job appears in the returned list exactly once. */
  lemma EveryJobReported(root: Path, digest: Job -> string, jobs: seq<Job>, force: bool, present: Path -> bool,
                         outcome: Task -> Outcome)
    requires RunJobsSpec(root, digest, jobs, force, present, outcome).Ok?
    ensures multiset(JobsOf(RunJobsSpec(root, digest, jobs, force, present, outcome).value)) == multiset(jobs)
  {
    PartitionKeepsJobs(root, digest, jobs, force, present);
    var (cached, toRun) := Partition(root, digest, jobs, force, present).value;
    if toRun != [] {
      var ran := Flatten(GroupAll(toRun));
      GroupsCoverJobs(toRun);
      SettledJobs(cached, ran, outcome);
    }
  }

  /** `run_jobs` fails exactly when some job has no result path. */
  lemma RunJobsFails(root: Path, digest: Job -> string, jobs: seq<Job>, force: bool, present: Path -> bool,
                     outcome: Task -> Outcome)
    ensures RunJobsSpec(root, digest, jobs, force, present, outcome).Err?
            <==> exists i :: 0 <= i < |jobs| && CheckedPath(root, digest, jobs[i]).Err?
  {
    PartitionFails(root, digest, jobs, force, present);
  }

  /** A reported status: cached as above, "success" with the checked path, or "failed:..." with no path. */
  predicate ReportedWell(root: Path, digest: Job -> string, force: bool, present: Path -> bool, s: Status) {
    || CachedWell(root, digest, force, present, s)
    || (s.status == "success" && s.path.Some? && CheckedPath(root, digest, s.job) == Ok(s.path.value))
    || (IsFailure(s.status) && s.path == None)
  }

  lemma SettledWell(root: Path, digest: Job -> string, force: bool, present: Path -> bool, ts: seq<Task>,
                    outcome: Task -> Outcome)
    requires forall t :: t in ts ==> CheckedPath(root, digest, t.job) == Ok(t.path)
    ensures forall s :: s in SettleAll(ts, outcome) ==> ReportedWell(root, digest, force, present, s)
  {
    forall s | s in SettleAll(ts, outcome) ensures ReportedWell(root, digest, force, present, s) {
      var i :| 0 <= i < |ts| && SettleAll(ts, outcome)[i] == s;
      if outcome(ts[i]).Raised? {
        assert s.status[..7] == "failed:";
      }
    }
  }

  /** Every status `run_jobs` returns is well formed in the sense of `ReportedWell`. */
  lemma StatusesAreWellFormed(root: Path, digest: Job -> string, jobs: seq<Job>, force: bool, present: Path -> bool,
                              outcome: Task -> Outcome)
    requires RunJobsSpec(root, digest, jobs, force, present, outcome).Ok?
    ensures forall s :: s in RunJobsSpec(root, digest, jobs, force, present, outcome).value ==>
              ReportedWell(root, digest, force, present, s)
  {
    PartitionSplits(root, digest, jobs, force, present);
    var (cached, toRun) := Partition(root, digest, jobs, force, present).value;
    if toRun != [] {
      var ran := Flatten(GroupAll(toRun));
      GroupsCoverTasks(toRun);
      forall t | t in ran ensures CheckedPath(root, digest, t.job) == Ok(t.path) {
        assert t in multiset(toRun);
        var k :| 0 <= k < |toRun| && toRun[k] == t;
        assert PendingWell(root, digest, force, present, toRun[k]);
      }
      SettledWell(root, digest, force, present, ran, outcome);
    }
  }

  /** With `force`, no job is reported as cached. */
  lemma ForceReportsNoCache(root: Path, digest: Job -> string, jobs: seq<Job>, present: Path -> bool,
                            outcome: Task -> Outcome)
    requires RunJobsSpec(root, digest, jobs, true, present, outcome).Ok?
    ensures forall s :: s in RunJobsSpec(root, digest, jobs, true, present, outcome).value ==> s.status != "cached"
  {
    StatusesAreWellFormed(root, digest, jobs, true, present, outcome);
    var ss := RunJobsSpec(root, digest, jobs, true, present, outcome).value;
    forall s | s in ss ensures s.status != "cached" {
      assert ReportedWell(root, digest, true, present, s);
      if IsFailure(s.status) {
        assert |"cached"| < 7;
      }
    }
  }

  /** When every job's result already exists and `force` is off, the answer is all cached statuses in job order. */
  lemma {:induction false} AllCachedReturnsCache(root: Path, digest: Job -> string, jobs: seq<Job>, present: Path -> bool,
                                                 outcome: Task -> Outcome)
    requires forall i :: 0 <= i < |jobs| ==>
               CheckedPath(root, digest, jobs[i]).Ok? && present(CheckedPath(root, digest, jobs[i]).value)
    ensures Partition(root, digest, jobs, false, present).Ok?
    ensures var (cached, toRun) := Partition(root, digest, jobs, false, present).value;
            && toRun == []
            && RunJobsSpec(root, digest, jobs, false, present, outcome) == Ok(cached)
            && |cached| == |jobs|
            && forall i :: 0 <= i < |jobs| ==>
                 cached[i] == Status(jobs[i], "cached", Some(CheckedPath(root, digest, jobs[i]).value))
  {
    if jobs != [] {
      var front := jobs[..|jobs| - 1];
      assert forall i :: 0 <= i < |front| ==> front[i] == jobs[i];
      AllCachedReturnsCache(root, digest, front, present, outcome);
      PartitionStep(root, digest, jobs, false, present);
    }
  }

  // ---------------------------------------------------------------- one job

  /** The metadata stored beside the results, and where it is written. */
  datatype Saved = Saved(path: Path, results: seq<(int, int)>, metadata: map<string, Value>)

  /** `range(reps)` runs no iteration for a negative count. */
  function Count(reps: int): nat {
    if reps < 0 then 0 else reps
  }

  /**
   * The first `k` repetitions: each one looks up `algorithm` and
   * `algo_args` (a `KeyError` if missing), then creates and runs the
   * algorithm, whose `(best, evals)` or exception `attempt(i)` gives.
   */
  function Repetitions(job: Job, attempt: nat -> Result<(int, int), Exception>, k: nat): Result<seq<(int, int)>, Exception> {
    if k == 0 then Ok([])
    else
      match Repetitions(job, attempt, k - 1)
      case Err(e) => Err(e)
      case Ok(results) =>
        if "algorithm" !in job || "algo_args" !in job then Err(KeyError)
        else match attempt(k - 1)
          case Err(e) => Err(e)
          case Ok(run) => Ok(results + [run])
  }

  /** Successful repetitions are exactly the `k` runs, in order. */
  lemma {:induction false} RepetitionsCollectRuns(job: Job, attempt: nat -> Result<(int, int), Exception>, k: nat)
    ensures var r := Repetitions(job, attempt, k);
            r.Ok? <==> (k == 0 || ("algorithm" in job && "algo_args" in job)) && forall i :: 0 <= i < k ==> attempt(i).Ok?
    ensures var r := Repetitions(job, attempt, k);
            r.Ok? ==> |r.value| == k && forall i :: 0 <= i < k ==> r.value[i] == attempt(i).value
  {
    if k > 0 {
      RepetitionsCollectRuns(job, attempt, k - 1);
    }
  }

  lemma {:induction false} RepetitionsErrorSticks(job: Job, attempt: nat -> Result<(int, int), Exception>, i: nat, k: nat)
    requires i <= k && Repetitions(job, attempt, i).Err?
    ensures Repetitions(job, attempt, k) == Repetitions(job, attempt, i)
    decreases k - i
  {
    if i < k {
      RepetitionsErrorSticks(job, attempt, i + 1, k);
    }
  }

  function Get(job: Job, k: string, default: Value): Value {
    if k in job then job[k] else default
  }

  function RunNameValue(runName: Option<string>): Value {
    if runName.Some? then Str(runName.value) else Null
  }

  /** The entries the metadata reads with `job[...]`. */
  predicate HasMetadataFields(job: Job) {
    && "algorithm" in job && "benchmark_name" in job && "n" in job && "reps" in job
    && "algo_args" in job && "optimum" in job && "max_evals" in job
  }

  /** `json.dumps` serialises strings, integers and `None`, and fails on other objects it cannot serialise. */
  predicate Jsonable(v: Value) {
    !v.Other? || v.jsonable
  }

  /** The metadata dictionary of a job that has every field it reads. */
  function MetadataOf(runName: Option<string>, job: Job): map<string, Value>
    requires HasMetadataFields(job)
  {
    map[
      "run_name" := RunNameValue(runName),
      "algorithm" := job["algorithm"],
      "benchmark_name" := job["benchmark_name"],
      "n" := job["n"],
      "reps" := job["reps"],
      "algo_args" := job["algo_args"],
      "description" := Get(job, "description", Str("")),
      "optimum" := job["optimum"],
      "max_evals" := job["max_evals"],
      "budget_desc" := Get(job, "budget_description", Null)]
  }

  /** The metadata records the job's own size, repetition count and algorithm arguments. */
  lemma MetadataRecordsJob(runName: Option<string>, job: Job)
    requires HasMetadataFields(job)
    ensures var md := MetadataOf(runName, job);
            && "n" in md && "reps" in md && "algo_args" in md
            && md["n"] == job["n"] && md["reps"] == job["reps"] && md["algo_args"] == job["algo_args"]
  {
  }

  /**
   * The metadata `_run_single` serialises: `KeyError` when the job lacks a
   * field it reads (`reps` included, whatever the default used for the
   * loop), `TypeError` when a value cannot be serialised.
   */
  function Metadata(runName: Option<string>, job: Job): (r: Result<map<string, Value>, Exception>)
    ensures r == Err(KeyError) <==> !HasMetadataFields(job)
    ensures r.Ok? ==> HasMetadataFields(job) && r.value == MetadataOf(runName, job)
                      && forall k :: k in r.value ==> Jsonable(r.value[k])
    ensures r.Err? ==> r.error == KeyError || r.error == TypeError
  {
    if !HasMetadataFields(job) then Err(KeyError)
    else
      var md := MetadataOf(runName, job);
      if exists k :: k in md && !Jsonable(md[k]) then Err(TypeError) else Ok(md)
  }

  /** What `_run_single` does with a job, as a value: the saved file, or the exception it raises. */
  function RunSingleSpec(root: Path, digest: Job -> string, runName: Option<string>, job: Job,
                         attempt: nat -> Result<(int, int), Exception>): Result<Saved, Exception>
  {
    if "problem" !in job || "optimum" !in job || "max_evals" !in job then Err(KeyError)
    else
      var reps := Get(job, "reps", Num(1));
      if !reps.Num? then Err(TypeError)
      else
        match Repetitions(job, attempt, Count(reps.i))
        case Err(e) => Err(e)
        case Ok(results) =>
          match CheckedPath(root, digest, job)
          case Err(e) => Err(e)
          case Ok(path) =>
            match Metadata(runName, job)
            case Err(e) => Err(e)
            case Ok(md) => Ok(Saved(path, results, md))
  }

  /**
   * A saved job was written to the very path `run_jobs` checks, holds one
   * result per repetition (`reps`, default 1, none when negative) in order,
   * and records the job's own `reps`, `n` and `algo_args`.
   */
  lemma RunSingleWritesCheckedPath(root: Path, digest: Job -> string, runName: Option<string>, job: Job,
                                   attempt: nat -> Result<(int, int), Exception>)
    requires RunSingleSpec(root, digest, runName, job, attempt).Ok?
    ensures var saved := RunSingleSpec(root, digest, runName, job, attempt).value;
            && CheckedPath(root, digest, job) == Ok(saved.path)
            && "reps" in job && job["reps"].Num?
            && |saved.results| == Count(job["reps"].i)
            && (forall i :: 0 <= i < |saved.results| ==> attempt(i) == Ok(saved.results[i]))
            && saved.metadata["reps"] == job["reps"] && saved.metadata["n"] == job["n"]
  {
    var reps := Get(job, "reps", Num(1));
    var results := Repetitions(job, attempt, Count(reps.i));
    var path := CheckedPath(root, digest, job);
    var md := Metadata(runName, job);
    assert results.Ok? && path.Ok? && md.Ok?;
    assert RunSingleSpec(root, digest, runName, job, attempt) == Ok(Saved(path.value, results.value, md.value));
    RepetitionsCollectRuns(job, attempt, Count(reps.i));
    MetadataRecordsJob(runName, job);
  }

  /**
   * The errors of `_run_single`: a missing `problem`, `optimum` or
   * `max_evals` is a `KeyError`, a non-integer `reps` a `TypeError`; and a
   * job without a `reps` entry, although it runs once by default, fails
   * with `KeyError` when its metadata is written.
   */
  lemma RunSingleErrors(root: Path, digest: Job -> string, runName: Option<string>, job: Job,
                        attempt: nat -> Result<(int, int), Exception>)
    ensures "problem" !in job || "optimum" !in job || "max_evals" !in job
            ==> RunSingleSpec(root, digest, runName, job, attempt) == Err(KeyError)
    ensures ("problem" in job && "optimum" in job && "max_evals" in job && "reps" in job && !job["reps"].Num?)
            ==> RunSingleSpec(root, digest, runName, job, attempt) == Err(TypeError)
    ensures "reps" !in job ==> RunSingleSpec(root, digest, runName, job, attempt).Err?
  {
  }

  // ---------------------------------------------------------------- the runner

  class Runner {
    const dataDir: Path
    const runName: Option<string>
    const maxWorkers: Option<int>
    /** md5 of the sorted JSON text of the entries, as an uninterpreted function. */
    const digest: Job -> string

    constructor (dataDir: Path, runName: Option<string>, maxWorkers: Option<int>, digest: Job -> string)
      ensures this.dataDir == dataDir && this.runName == runName && this.maxWorkers == maxWorkers
      ensures this.digest == digest
    {
      this.dataDir := dataDir;
      this.runName := runName;
      this.maxWorkers := maxWorkers;
      this.digest := digest;
    }

    function Root(): Path {
      DataRoot(dataDir, runName)
    }

    /**
     * `run_jobs(jobs, force)`. `present` is `path.exists()` at the time of
     * the call and `outcome` the result of each task. The tasks are settled
     * in submission order.
     */
    method RunJobs(jobs: seq<Job>, force: bool, present: Path -> bool, outcome: Task -> Outcome)
      returns (r: Result<seq<Status>, Exception>)
      ensures r == RunJobsSpec(Root(), digest, jobs, force, present, outcome)
    {
      var statuses: seq<Status> := [];
      var toRun: seq<Task> := [];
      var i := 0;
      while i < |jobs|
        invariant 0 <= i <= |jobs|
        invariant Partition(Root(), digest, jobs[..i], force, present) == Ok((statuses, toRun))
      {
        var job := jobs[i];
        assert jobs[..i + 1][..i] == jobs[..i];
        var path := ResultPath(Root(), job, JobKey(digest, job));
        if path.Err? {
          PartitionErrorSticks(Root(), digest, jobs, i + 1, force, present);
          return Err(path.error);
        }
        if !force && present(path.value) {
          statuses := statuses + [Status(job, "cached", Some(path.value))];
        } else {
          toRun := toRun + [Task(job, job["algorithm"].s, path.value)];
        }
        i := i + 1;
      }
      assert jobs[..|jobs|] == jobs;
      if toRun == [] {
        return Ok(statuses);
      }
      var groups := GroupTasks(toRun);
      var submitted := Flatten(groups);
      var settled := Settle(submitted, outcome);
      return Ok(statuses + settled);
    }

    /** The `setdefault` loop that fills `alg_groups`. */
    static method GroupTasks(toRun: seq<Task>) returns (groups: seq<Group>)
      ensures groups == GroupAll(toRun)
    {
      groups := [];
      var i := 0;
      while i < |toRun|
        invariant 0 <= i <= |toRun|
        invariant groups == GroupAll(toRun[..i])
      {
        assert toRun[..i + 1][..i] == toRun[..i];
        var t := toRun[i];
        match Find(groups, t.algorithm) {
          case Some(j) =>
            groups := groups[j := groups[j].(tasks := groups[j].tasks + [t])];
          case None =>
            groups := groups + [Group(t.algorithm, [t])];
        }
        i := i + 1;
      }
      assert toRun[..|toRun|] == toRun;
    }

    /** The `as_completed` loop, one status per finished task. */
    static method Settle(submitted: seq<Task>, outcome: Task -> Outcome) returns (statuses: seq<Status>)
      ensures statuses == SettleAll(submitted, outcome)
    {
      statuses := [];
      var i := 0;
      while i < |submitted|
        invariant 0 <= i <= |submitted|
        invariant statuses == SettleAll(submitted[..i], outcome)
      {
        var t := submitted[i];
        var status: string;
        var path: Option<Path>;
        match outcome(t) {
          case Succeeded =>
            status, path := "success", Some(t.path);
          case Raised(repr) =>
            status, path := "failed:" + repr, None;
        }
        statuses := statuses + [Status(t.job, status, path)];
        i := i + 1;
      }
      assert submitted[..|submitted|] == submitted;
    }

    /** `_run_single(job, path)`: the repetitions, then the result file. */
    method RunSingle(job: Job, attempt: nat -> Result<(int, int), Exception>) returns (r: Result<Saved, Exception>)
      ensures r == RunSingleSpec(Root(), digest, runName, job, attempt)
    {
      if "problem" !in job || "optimum" !in job || "max_evals" !in job {
        return Err(KeyError);
      }
      var reps := Get(job, "reps", Num(1));
      if !reps.Num? {
        return Err(TypeError);
      }
      var results: seq<(int, int)> := [];
      var i := 0;
      while i < Count(reps.i)
        invariant 0 <= i <= Count(reps.i)
        invariant Repetitions(job, attempt, i) == Ok(results)
      {
        if "algorithm" !in job || "algo_args" !in job {
          RepetitionsErrorSticks(job, attempt, i + 1, Count(reps.i));
          return Err(KeyError);
        }
        var run := attempt(i);
        if run.Err? {
          RepetitionsErrorSticks(job, attempt, i + 1, Count(reps.i));
          return Err(run.error);
        }
        results := results + [run.value];
        i := i + 1;
      }
      var path := ResultPath(Root(), job, JobKey(digest, job));
      if path.Err? {
        return Err(path.error);
      }
      var md := Metadata(runName, job);
      if md.Err? {
        return Err(md.error);
      }
      return Ok(Saved(path.value, results, md.value));
    }
  }
}
