# DEGA in Dafny

A Dafny model of the experiment code of the DEGA repository (FOGA 2025). The
repository studies the (2+1) "diversity-exploitation" genetic algorithms on
bit strings: DEGA, DEGA_A, DEGA_B and DEGA_Limit. It compares them with the
Univariate Marginal Distribution Algorithm (UMDA). Around the algorithms sits
a small job pipeline:
- an algorithm registry and a benchmark registry;
- a builder of job suites;
- a loader of job files;
- a cache-aware runner that stores one result file per job.

The model keeps the source's structure, one module per source file:

| module | file |
|---|---|
| `Helper` | `helper.dfy` — variation operators and the four replacement rules |
| `TwoPlusOne` | `population.dfy` — the population, initialisation, the random oracle, the first-improvement refinement loop shared by DEGA_A and DEGA_Limit |
| `Dega`, `DegaA`, `DegaB`, `DegaLimit`, `Umda` | one file per algorithm |
| `AlgorithmFactory`, `Benchmarks`, `Jump` | the registries and the Jump fitness function |
| `Arguments`, `ConfigBuilder`, `Runner` | the job pipeline |
| `Wrappers`, `Numeric` | `Option`/`Result`, the exceptions, and Python's `int(float)` |

How each algorithm is modelled:
- Each run loop is an imperative `Run` method of a class that holds the constructor's parameters.
- Its inner loops and phases are separate methods.
- Every method is proved equal to a pure specification: a `Step` function per pass and a recursive `RunFrom` for the loop.
- The algorithm's properties are lemmas about those functions: counter accounting, a best fitness that never decreases, the replacement rule of each phase, and what a run returns.

What the model takes as inputs rather than computing:
- **Randomness.** A run draws from an `Oracle` value. Draws are keyed by the evaluation counter at which they happen: the coin choosing between mutation and crossover, the coin choosing the parent, the mask bits, the index of `random.choice`, and the initial bits. Every contract therefore holds for every outcome of the random draws. The mutation and crossover rates only label the mask bits.
- **Fitness.** Fitness is an arbitrary total function `seq<int> -> int`.
- **`log(n)`.** It is a `real` parameter. The source's `int(...)` of a float is `Numeric.Trunc`, which truncates toward zero.
- **Runner inputs.** md5 is an uninterpreted function of the job's entries. The file system enters only as a predicate saying which paths exist. Each task's outcome is an input.

## Model

| member | source | states |
|---|---|---|
| Helper.Hamming | src/util/helper.py:37-38 | the distance is at most the length, and 0 exactly for equal vectors |
| Helper.HammingSymmetric | src/util/helper.py:37-38 | the distance is symmetric |
| Helper.Mutate | src/util/helper.py:5-7 | same length; differs from the input exactly at the masked positions, each flipped to `1 - b`; 0/1 vectors stay 0/1 |
| Helper.MutateDistance | src/util/helper.py:5-7 | the offspring is at Hamming distance "number of masked positions" from the parent |
| Helper.BiasedCrossover | src/util/helper.py:15-17 | `x2[i]` where the mask is set, `x1[i]` elsewhere; equal parents give that parent; 0/1 preserved |
| Helper.CrossoverBetween | src/util/helper.py:15-17 | the offspring lies on a shortest path between the parents: d(r,x1) + d(r,x2) = d(x1,x2) |
| Helper.UniformCrossover | src/util/helper.py:10-12 | every entry comes from one of the two parents |
| Helper.UniformIsBiasedSwapped | src/util/helper.py:10-17 | the uniform crossover is the biased crossover with the parents exchanged |
| Helper.Oriented | src/util/helper.py:60-64 | the pair is put in the order `fa >= fb`; a pair with `fa >= fb` (equal fitnesses included) is returned unchanged |
| Helper.Pairs | src/util/helper.py:40-45 | the three pairs (x1, x2), (x1, x3), (x2, x3), each with its own length and its Hamming distance |
| Helper.BestScore | src/util/helper.py:48 | the largest `(max, min)` score among the candidates, attained by one of them |
| Helper.WithScore | src/util/helper.py:49 | keeps exactly the candidates with the given score |
| Helper.MaxDistance | src/util/helper.py:53 | the largest Hamming distance among the candidates, attained by one of them |
| Helper.WithDistance | src/util/helper.py:54 | keeps exactly the candidates with the given distance |
| Helper.Finalists | src/util/helper.py:47-54 | a non-empty sub-list of the candidates; `FinalistsAreOptimal` states that it holds exactly the optimal ones |
| Helper.FinalistsAreOptimal | src/util/helper.py:47-54 | the list `random.choice` draws from holds exactly the optimal candidates: maximal score, then maximal distance |
| Helper.Chosen | src/util/helper.py:57 | `random.choice` over the finalists returns one of the candidates; `ChosenOptimal` states that it is optimal |
| Helper.ChosenOptimal | src/util/helper.py:57 | whatever the draw, the chosen candidate is optimal |
| Helper.EveryOptimalIsChosen | src/util/helper.py:57 | every optimal candidate is the outcome of some draw |
| Helper.SelectPopulation | src/util/helper.py:20-64 | `fa >= fb`; both returned individuals are inputs, each with its own fitness |
| Helper.SelectPopulationOptimal | src/util/helper.py:41-64 | the result is an optimal pair of the three, put in order |
| Helper.SelectPopulationIsBest | src/util/helper.py:42-54 | the result's score is lexicographically maximal, and its distance is maximal among the pairs of equal score |
| Helper.SelectPopulationReachesEveryOptimal | src/util/helper.py:56-57 | every optimal pair is returned for some draw |
| Helper.SelectPopulationKeepsBest | src/util/helper.py:41-64 | the fittest of the three is always kept, in the first slot |
| Helper.ChosenKeepsBest | src/util/helper.py:42-49 | an optimal pair holds the largest of the three fitnesses |
| Helper.SelectPopulationLimit | src/util/helper.py:67-105 | both returned individuals are inputs with their fitness; the new `l` is 0 or `l`, and 0 whenever the pair is not `(x1, x2)` |
| Helper.SelectPopulationLimitOptimal | src/util/helper.py:87-105 | the pair is an optimal candidate, returned in its built order; `new_l` is 0 exactly when the candidate holds `x3`, else `l` |
| Helper.SelectPopulationLimitKeepsBest | src/util/helper.py:87-105 | the fittest of the three is always kept |
| Helper.SelectPopulationLimitKeepsOrder | src/util/helper.py:102-105 | a concrete input where the limit rule returns the worse individual first (no reordering) |
| Helper.LimitChoice | src/util/helper.py:102 | `random.choice(best) if len(best) > 1 else best[0]` returns one of the candidates; `LimitChoiceIsChosen` states that it agrees with `Chosen` |
| Helper.LimitChoiceIsChosen | src/util/helper.py:102 | taking `best[0]` for a single finalist agrees with the draw |
| Helper.SelectPopulationDegaA | src/util/helper.py:108-117 | `other` is always second; parent kept when `f_off < f_parent`, offspring when `f_off > f_parent`; on equal fitness the offspring exactly when strictly farther from `other`; first fitness is `max(f_off, f_parent)` |
| Helper.SelectPopulationAlterParent | src/util/helper.py:120-136 | `other` is always first; the second slot gets the fitter of parent and offspring, on equal fitness the one farther from `other`; its fitness is `max(f_off, f_parent)` |
| Helper.AlterParentTieEitherWay | src/util/helper.py:129-132 | on an exact distance tie, either draw outcome is possible |
| TwoPlusOne.Mask | src/util/helper.py:6 | the mask drawn at count `t` has one bit per position |
| TwoPlusOne.Complement | src/algorithms/dega.py:28 | `1 - x`, entry by entry; a 0/1 vector stays 0/1, and the complement differs from `x` everywhere (distance `n`) |
| TwoPlusOne.InitialVector | src/algorithms/dega.py:27 | a 0/1 vector of length `n` |
| TwoPlusOne.InitialPop | src/algorithms/dega.py:27-31 | a random vector and its complement, both evaluated; they are at distance `n` |
| TwoPlusOne.Ordered | src/algorithms/dega.py:42-44 | after the swap `f_1 <= f_2`, and `f_2` is the old best |
| TwoPlusOne.PickParent | src/algorithms/dega.py:54-58 | the population, or the population swapped |
| TwoPlusOne.SwapConsistent | src/algorithms/dega.py:43-44 | exchanging the individuals keeps them consistent and keeps the best fitness |
| TwoPlusOne.RefineFirst | src/algorithms/dega_a.py:68-77 | either `x_1` unchanged after all `max(k, 0)` attempts, or a strictly fitter offspring with its own fitness; the counter rises by at most `max(k, 0)` |
| TwoPlusOne.RefineFirstLoop | src/algorithms/dega_a.py:68-77 | the `for`/`break` loop computes `RefineFirst` |
| TwoPlusOne.Attempt | src/algorithms/dega_a.py:69 | one refinement attempt: a crossover of `x_1` towards `y` of length `n`, 0/1 when both are |
| TwoPlusOne.LastAttempt | src/algorithms/dega_a.py:69-71 | the attempt whose evaluation brought the counter to `cnt`, of length `n` |
| TwoPlusOne.RefineFirstEarlierAttemptsFail | src/algorithms/dega_a.py:68-77 | every attempt before the last fails to beat `f_1` (first improvement) |
| TwoPlusOne.RefineFirstAdoptsLastAttempt | src/algorithms/dega_a.py:68-77 | an improving loop made an attempt and adopted its last one, which beat `f_1`; a loop that does not improve made no attempt or saw its last attempt fail |
| TwoPlusOne.RefineFirstOutcome | src/algorithms/dega_a.py:68-77 | the refined worse individual is `x_1` with `f_1` unless something beat `f_1`, and otherwise the last attempt, made after the starting count, with its own fitness |
| Dega.Step | src/algorithms/dega.py:41-68 | one pass of the loop body keeps both vectors of length `n`; its effect is stated by `ExploitationStep` and `DiversityStep` |
| Dega.Exploit | src/algorithms/dega.py:41-52 | the exploitation pass keeps both vectors of length `n` |
| Dega.Diversify | src/algorithms/dega.py:53-68 | the diversity pass keeps both vectors of length `n` |
| Dega.StepConsistent | src/algorithms/dega.py:41-68 | both individuals stay 0/1 vectors of length `n`, each with its own fitness |
| Dega.ExploitConsistent | src/algorithms/dega.py:41-52 | the same, for the exploitation pass |
| Dega.DiversifyConsistent | src/algorithms/dega.py:53-68 | the same, for the diversity pass |
| Dega.ExploitationStep | src/algorithms/dega.py:41-52 | after the swap `f_1 < f_2`; the better individual is untouched; `x_1` is replaced exactly when the offspring is strictly fitter |
| Dega.DiversityStep | src/algorithms/dega.py:53-68 | the new population is an optimal pair of {other, parent, offspring}, better first |
| Dega.StepNeverWorsens | src/algorithms/dega.py:41-68 | `max(f_1, f_2)` never decreases |
| Dega.DiversifyNeverWorsens | src/algorithms/dega.py:53-68 | the same, for the diversity pass |
| Dega.RunFrom | src/algorithms/dega.py:35-71 | the loop as a recursion on the count: convergence, then a `ZeroDivisionError` for a zero divisor, then one `Step`; its meaning is stated by `RunFromOutcome` |
| Dega.DividesByZero | src/algorithms/dega.py:41-61 | the pass about to run divides by zero: `1 / lamb` with `lamb == 0` in exploitation, `chi / n` with `n == 0` in diversity |
| Dega.RunFromOutcome | src/algorithms/dega.py:35-71 | on success the returned best is no lower than the start's, the count stays below the budget only on convergence, and otherwise it is exactly `max(cnt, max_evals)`; a failure is `ZeroDivisionError` with `n == 0` or `lamb == 0` |
| Dega.EmptyRunFails | src/algorithms/dega.py:27-61 | with `n == 0` the run raises `ZeroDivisionError` exactly when it makes a pass (`chi / n` of the diversity phase) |
| Dega.Dega.constructor | src/algorithms/dega.py:10-21 | stores `n` and `lamb`; `chi = 1.0` |
| Dega.Dega.Run | src/algorithms/dega.py:26-71 | the loop computes `RunFrom` from the initial population at count 2, raising `ZeroDivisionError` at `1 / lamb` and `chi / n`; on success `2 <= cnt <= max(2, max_evals)`, and early return only on convergence |
| DegaA.Tries | src/algorithms/dega_a.py:68 | `int(hamm_dist * log(n))` is non-negative when `log n >= 0`; `TriesBounds` bounds it by `int(n log n)` |
| DegaA.TriesBounds | src/algorithms/dega_a.py:67-68 | `int(hamm * log n)` is non-negative and at most `int(n log n)` |
| DegaA.MutationPass | src/algorithms/dega_a.py:40-55 | the mutation branch costs one evaluation and keeps lengths |
| DegaA.CrossoverPass | src/algorithms/dega_a.py:56-77 | the crossover branch costs at least one evaluation and keeps lengths |
| DegaA.Step | src/algorithms/dega_a.py:40-77 | one pass of the loop body keeps lengths and costs at least one evaluation |
| DegaA.RefinementDistancePositive | src/algorithms/dega_a.py:66-69 | a refinement only starts when `y` differs from `x_1`, so `1/hamm_dist` is well defined |
| DegaA.StepConsistent | src/algorithms/dega_a.py:40-77 | both individuals stay consistent |
| DegaA.StepNeverWorsens | src/algorithms/dega_a.py:40-77 | `max(f_1, f_2)` never decreases; in the crossover branch the better individual is kept and the worse one's fitness does not fall |
| DegaA.CrossoverPassOutcome | src/algorithms/dega_a.py:56-77 | the worse individual is kept, or replaced by the last refinement attempt, which beat it; `y` itself is never adopted |
| DegaA.StepCost | src/algorithms/dega_a.py:51-77 | a pass costs one evaluation plus one per refinement attempt: between 1 and `1 + int(n log n)` |
| DegaA.RunFrom | src/algorithms/dega_a.py:34-79 | the loop as a recursion: convergence, then `ZeroDivisionError` for a mutation pass with `n == 0`, then one `Step`; its meaning is stated by `RunFromOutcome` |
| DegaA.DividesByZero | src/algorithms/dega_a.py:40-48 | the pass about to run is a mutation, whose `chi / n` divides by `n == 0` |
| DegaA.RunFromOutcome | src/algorithms/dega_a.py:34-79 | on success: best never below the start's; count below the budget only on convergence; on exhaustion the count is at least `max_evals` and overshoots it by at most one refinement; a failure is `ZeroDivisionError` with `n == 0` |
| DegaA.DegaA.constructor | src/algorithms/dega_a.py:14-23 | stores `n`; `chi = 1.0` |
| DegaA.DegaA.Run | src/algorithms/dega_a.py:25-79 | the loop computes `RunFrom` from the initial population at count 2, raising `ZeroDivisionError` at `chi / n`, with the consequences above |
| DegaB.RefineAll | src/algorithms/dega_b.py:76-83 | exactly `max(u, 0)` attempts; the result is the original `y` or an attempt fitter than `f_1` |
| DegaB.RefineAllImproves | src/algorithms/dega_b.py:75-85 | a `y` fitter than `x_1` stays fitter through the whole refinement |
| DegaB.RefineAllMayLoseFitness | src/algorithms/dega_b.py:81-83 | a concrete case where `y` is replaced by a less fit attempt, because the comparison is against `f_1`, not `f_y` |
| DegaB.RefineAllLoop | src/algorithms/dega_b.py:76-83 | the `for` loop computes `RefineAll` |
| DegaB.CrossoverPhase | src/algorithms/dega_b.py:65-85 | the crossover branch run on the loop variables computes `CrossoverPass` |
| DegaB.MutationPass | src/algorithms/dega_b.py:44-64 | the mutation branch costs one evaluation and keeps lengths |
| DegaB.CrossoverPass | src/algorithms/dega_b.py:65-85 | the crossover branch costs at least one evaluation and keeps lengths |
| DegaB.Step | src/algorithms/dega_b.py:44-85 | one pass of the loop body keeps lengths and costs at least one evaluation |
| DegaB.StepConsistent | src/algorithms/dega_b.py:44-85 | both individuals stay consistent |
| DegaB.CrossoverPassOutcome | src/algorithms/dega_b.py:65-85 | when `f_y > f_1` the pass costs exactly `1 + max(u, 0)` and strictly improves `x_1`; otherwise it costs 1 and only reorders |
| DegaB.StepNeverWorsens | src/algorithms/dega_b.py:44-85 | `max(f_1, f_2)` never decreases |
| DegaB.RunFrom | src/algorithms/dega_b.py:38-87 | the loop as a recursion: convergence, then `ZeroDivisionError` for a mutation pass with `n == 0`, then one `Step`; its meaning is stated by `RunFromOutcome` |
| DegaB.DividesByZero | src/algorithms/dega_b.py:44-52 | the pass about to run is a mutation, whose `chi / n` divides by `n == 0` |
| DegaB.RunFromOutcome | src/algorithms/dega_b.py:38-87 | on success: best never below the start's; count below the budget only on convergence; otherwise between `max_evals` and `max_evals + max(u, 0)`; a failure is `ZeroDivisionError` with `n == 0` |
| DegaB.DegaB.constructor | src/algorithms/dega_b.py:14-27 | `u` defaults to `int(10 log n)`, else is used as given |
| DegaB.DegaB.Run | src/algorithms/dega_b.py:29-87 | the loop computes `RunFrom` from the initial population at count 2, raising `ZeroDivisionError` at `chi / n`, with the bounds above |
| DegaLimit.Exploits | src/algorithms/dega_limit.py:49 | the exploitation test `f_1 != f_2 and l <= u`; `LimitForcesMutation` states its consequence |
| DegaLimit.ExploitPass | src/algorithms/dega_limit.py:49-71 | the exploitation pass costs at least one evaluation and keeps lengths |
| DegaLimit.DiversityPass | src/algorithms/dega_limit.py:72-93 | the diversity pass costs one evaluation and keeps lengths |
| DegaLimit.Step | src/algorithms/dega_limit.py:49-93 | one pass of the loop body keeps lengths and costs at least one evaluation |
| DegaLimit.StepConsistent | src/algorithms/dega_limit.py:49-93 | both individuals stay consistent |
| DegaLimit.ExploitPassConsistent | src/algorithms/dega_limit.py:49-71 | the same, for the exploitation pass |
| DegaLimit.DiversityPassConsistent | src/algorithms/dega_limit.py:72-93 | the same, for the diversity pass |
| DegaLimit.ExploitPassOutcome | src/algorithms/dega_limit.py:49-71 | either `x_1` strictly improves and `l` resets to 0, or the ordered population is kept and `l` rises by 1; cost between 1 and `1 + max(u, 0)` |
| DegaLimit.ExploitPassAdoptsAttempt | src/algorithms/dega_limit.py:60-71 | a reset comes with the last refinement attempt, which beat `x_1`; `y` is never adopted |
| DegaLimit.LimitForcesMutation | src/algorithms/dega_limit.py:49-72 | once `l > u`, or on equal fitness, the pass is a mutation |
| DegaLimit.DiversityPassLimit | src/algorithms/dega_limit.py:83-93 | the diversity pass keeps `l` or resets it to 0, and resets it whenever the new population is not (other, parent) |
| DegaLimit.DiversityPassOptimal | src/algorithms/dega_limit.py:72-93 | the population becomes an optimal pair of {other, parent, offspring} in built order; `l` is 0 exactly when that pair holds the offspring |
| DegaLimit.StepLimitBounded | src/algorithms/dega_limit.py:41-93 | a pass keeps `l` within `0 .. max(u + 1, 0)`, so it stays there from its start at 0 |
| DegaLimit.StepNeverWorsens | src/algorithms/dega_limit.py:49-93 | `max(f_1, f_2)` never decreases |
| DegaLimit.DiversityPassNeverWorsens | src/algorithms/dega_limit.py:72-93 | the same, for the diversity pass |
| DegaLimit.RunFrom | src/algorithms/dega_limit.py:43-96 | the loop as a recursion: convergence, then `ZeroDivisionError` for a zero divisor (`1 / lamb` of a refinement that starts, `chi / n`), then one `Step`; its meaning is stated by `RunFromOutcome` |
| DegaLimit.DividesByZero | src/algorithms/dega_limit.py:49-80 | the pass about to run divides by zero: in exploitation, `1 / lamb` with `lamb == 0` once `f_y > f_1` starts a refinement with `u >= 1`; in diversity, `chi / n` with `n == 0` |
| DegaLimit.RunFromOutcome | src/algorithms/dega_limit.py:43-96 | on success: best never below the start's; count below the budget only on convergence; otherwise between `max_evals` and `max_evals + max(u, 0)`; a failure is `ZeroDivisionError` with `n == 0` or `lamb == 0` |
| DegaLimit.EmptyRunFails | src/algorithms/dega_limit.py:34-80 | with `n == 0` the run raises `ZeroDivisionError` exactly when it makes a pass (`chi / n` of the diversity phase) |
| DegaLimit.ExploitPhase | src/algorithms/dega_limit.py:49-71 | the exploitation branch on the loop variables fails exactly when its first refinement attempt divides by `lamb == 0`, and otherwise computes `ExploitPass` |
| DegaLimit.DiversityPhase | src/algorithms/dega_limit.py:72-93 | the diversity branch on the loop variables computes `DiversityPass` |
| DegaLimit.DegaLimit.constructor | src/algorithms/dega_limit.py:11-28 | `u` defaults to `int(lamb log n)`, else is used as given |
| DegaLimit.DegaLimit.Run | src/algorithms/dega_limit.py:33-96 | the loop computes `RunFrom` from the initial population with `l = 0` at count 2, raising `ZeroDivisionError` at `1 / lamb` and `chi / n`, with the bounds above |
| Umda.Sample | src/algorithms/umda.py:30-32 | bit `i` of an individual is 1 exactly when its draw is below `probabilities[i]` |
| Umda.Population | src/algorithms/umda.py:30-32 | `lamb` individuals (none for `lamb <= 0`), individual `k` from draws `k` |
| Umda.Fitness | src/algorithms/umda.py:33-35 | one fitness per individual, in order |
| Umda.ArgSort | src/algorithms/umda.py:39 | a permutation of the indices `0 .. k - 1` |
| Umda.ArgSortSorted | src/algorithms/umda.py:39 | the indices are in ascending order of fitness |
| Umda.Elites | src/algorithms/umda.py:39 | `np.argsort(fitness_values)[-mu:]`, a list of sample indices; `EliteCount` and `ElitesAreFittest` state its size and meaning |
| Umda.EliteCount | src/algorithms/umda.py:39 | `[-mu:]` keeps `min(mu, lamb)` indices for `mu > 0`, all for `mu == 0`, and `max(lamb + mu, 0)` for `mu < 0` |
| Umda.ElitesAreFittest | src/algorithms/umda.py:39-40 | no sample outside the elites is fitter than an elite |
| Umda.LastEliteIsFittest | src/algorithms/umda.py:39-51 | the last elite is the fittest sample of the generation |
| Umda.Ones | src/algorithms/umda.py:43 | the number of elites with a one at a position is at most the number of elites |
| Umda.OnesExtremes | src/algorithms/umda.py:43 | the count is full exactly when every elite has a one, and 0 exactly when none has |
| Umda.Mean | src/algorithms/umda.py:43 | one frequency per position, each in `[0, 1]` |
| Umda.MeanUnanimous | src/algorithms/umda.py:43 | a frequency is 1 (resp. 0) exactly when all elites have a one (resp. zero) there |
| Umda.Clip | src/algorithms/umda.py:46-48 | the clip keeps the length |
| Umda.ClipBounds | src/algorithms/umda.py:46-48 | for `n >= 2` each probability lies in `[1/n, 1 - 1/n]`, and values already inside are kept |
| Umda.ClipOfLengthOne | src/algorithms/umda.py:46-48 | for `n == 1` the bounds cross and every probability becomes 0 |
| Umda.NextGeneration | src/algorithms/umda.py:29-51 | a success keeps the vector's length and needs `lamb >= 1`; a failure is `ZeroDivisionError` exactly when `n == 0` |
| Umda.GenerationBestIsMax | src/algorithms/umda.py:39-51 | `best_fitness` is the maximum fitness among the generation's samples |
| Umda.GenerationFails | src/algorithms/umda.py:39-51 | a generation fails exactly when `n == 0`, `lamb <= 0`, or `mu <= -lamb` |
| Umda.GenerationProbabilitiesClipped | src/algorithms/umda.py:43-48 | for `n >= 2` every new probability lies in `[1/n, 1 - 1/n]` |
| Umda.GenerationStep | src/algorithms/umda.py:29-51 | the generation of an instance as a step function, equal to `NextGeneration` at every input |
| Umda.GenerationStepAdvances | src/algorithms/umda.py:29-51 | a successful generation of an instance needs `lamb >= 1` and keeps the length of the probability vector |
| Umda.RunFrom | src/algorithms/umda.py:26-58 | the `while` loop as a recursion: a generation at a time, the first exception ends the run, convergence returns the generation's best; its meaning is stated by `RunFromOutcome` and `RunFromWholeGenerations` |
| Umda.RunFromOutcome | src/algorithms/umda.py:26-58 | with the budget already spent the start comes back unchanged; otherwise the length is kept, the count ends below the budget only on convergence, and it overshoots by less than one generation |
| Umda.RunFromWholeGenerations | src/algorithms/umda.py:26-36 | the count is a whole number of generations of `lamb` |
| Umda.Umda.constructor | src/algorithms/umda.py:8-23 | every probability starts at 0.5 |
| Umda.Umda.Loop | src/algorithms/umda.py:28-55 | the `while` loop computes `RunFrom` from count 0 and the sentinel |
| Umda.Umda.Run | src/algorithms/umda.py:25-58 | the result and the new probabilities are those of `RunFrom` from the previous probabilities, so a second run continues the distribution |
| AlgorithmFactory.Signature | src/simulation/config_builder.py:86-88 | each constructor's parameters, `self` first, `n` present, names distinct |
| AlgorithmFactory.Registry.constructor | src/algorithms/algorithm_factory.py:6 | the registry starts empty |
| AlgorithmFactory.Registry.Register | src/algorithms/algorithm_factory.py:18-23 | a new name is added at the end and `cls` returned; a known name raises `KeyError` and changes nothing |
| AlgorithmFactory.Registry.Create | src/algorithms/algorithm_factory.py:25-35 | `ValueError` exactly for an unknown name; otherwise the registered class with the given kwargs |
| AlgorithmFactory.Registry.Available | src/algorithms/algorithm_factory.py:37-40 | every registered name exactly once |
| Benchmarks.LinearOptimum | src/benchmarks/benchmark_wrapper.py:90 | `lambda n: n`, the optimum of LO, OM and JUMP |
| Benchmarks.LfhwOptimum | src/benchmarks/benchmark_wrapper.py:93-95 | `lambda n: n * (n + 1) // 2`; `LfhwOptimumIsTotalWeight` states that it is the total weight |
| Benchmarks.LfhwOptimumIsTotalWeight | src/benchmarks/benchmark_wrapper.py:93-95 | `n (n + 1) // 2` is the sum of the weights `1 .. n` |
| Benchmarks.MivsOpt | src/benchmarks/benchmark_wrapper.py:58-81 | `int(lookup.get(n, 0.0) - 0.5)`; its values are stated by `MivsOptAbsent` and `MivsOptListed` |
| Benchmarks.MivsOptAbsent | src/benchmarks/benchmark_wrapper.py:58-81 | a size not in the table gives `int(-0.5) == 0` |
| Benchmarks.MivsOptListed | src/benchmarks/benchmark_wrapper.py:58-81 | a listed size gives the estimate less one half, truncated; at least 8 |
| Benchmarks.MivsOptExamples | src/benchmarks/benchmark_wrapper.py:58-81 | `_mivs_opt` at 20, 22, 100 and 21 |
| Benchmarks.DefaultBudget | src/benchmarks/benchmark_wrapper.py:84-86 | `int(30 * (n * log(n)))` is non-negative for `n >= 0` and `log n >= 0` |
| Benchmarks.DefaultBudgetMonotone | src/benchmarks/benchmark_wrapper.py:84-86 | `int(30 n log n)` is non-negative and monotone |
| Benchmarks.Registry.constructor | src/benchmarks/benchmark_wrapper.py:28 | the registry starts empty |
| Benchmarks.Registry.WithDefaults | src/benchmarks/benchmark_wrapper.py:89-96 | LO, OM, MIVS, LFHW, JUMP in that order, with their optimum functions and the default budget |
| Benchmarks.Registry.Register | src/benchmarks/benchmark_wrapper.py:30-44 | stores the record, silently replacing an existing key, which keeps its place |
| Benchmarks.Registry.Get | src/benchmarks/benchmark_wrapper.py:46-48 | the stored record, `KeyError` exactly for an unknown key |
| Benchmarks.Registry.Keys | src/benchmarks/benchmark_wrapper.py:50-52 | every registered key exactly once |
| Numeric.Trunc | src/benchmarks/benchmark_wrapper.py:81 | `int(v)` truncates toward zero: the result is within 1 of `v`, on `v`'s side of 0 |
| Numeric.TruncMonotone | src/benchmarks/benchmark_wrapper.py:86 | truncation is monotone |
| Numeric.TruncOfNegativeFraction | src/benchmarks/benchmark_wrapper.py:81 | `int(-0.5) == 0`, unlike the floor |
| Jump.Sum | src/benchmarks/jump.py:6 | `int(arr.sum())`; `SumOfBits` states its range on 0/1 vectors |
| Jump.JumpM | src/benchmarks/jump.py:3-14 | `jump_m(arr, m)`; its values are stated by `JumpOutsideGap`, `JumpNegativeInGap` and `JumpOptimum` |
| Jump.SumOfBits | src/benchmarks/jump.py:6 | the bit count lies in `[0, n]` and is `n` exactly at the all-ones vector |
| Jump.JumpOutsideGap | src/benchmarks/jump.py:8-12 | for `u == n` or `u <= n - m` the value is the bit count |
| Jump.JumpNegativeInGap | src/benchmarks/jump.py:7-14 | the value is negative exactly for `n - m < u < n` |
| Jump.JumpOptimum | src/benchmarks/jump.py:3-14 | the value is at most `n`, and `n` exactly at the all-ones vector |
| Arguments.ConvertEntry | src/simulation/arguments.py:50-78 | `ValueError` exactly for a missing or unknown benchmark; `TypeError` exactly for a missing `n`; else a job with that key, `n` and algorithm |
| Arguments.ConvertEntryDefaults | src/simulation/arguments.py:56-66 | `reps` 1, `description` "" and `algo_args` {} by default; a given `max_evals` with its description, else the benchmark's budget and `None` |
| Arguments.LoadFromFile | src/simulation/arguments.py:44-81 | one job per entry, in order (none without a `jobs` key), or the error of the first failing entry |
| ConfigBuilder.IntToString | src/simulation/config_builder.py:119 | `str(k)` of an integer; `IntToStringRoundTrip` states `int(str(k)) == k` |
| ConfigBuilder.IntToStringRoundTrip | src/simulation/config_builder.py:119 | `int(str(k)) == k` |
| ConfigBuilder.FirstInvalid | src/simulation/config_builder.py:77-81 | the first key not a constructor parameter, `None` when there is none |
| ConfigBuilder.Validate | src/simulation/config_builder.py:65-81 | unknown algorithm, then unknown benchmark, then an unknown parameter; passes exactly when all three checks do |
| ConfigBuilder.ResolveArgs | src/simulation/config_builder.py:86-101 | `resolved_args` at size `n`; `ResolvedAreParameters`, `ResolvedValues` and `ResolvedCoversParameters` state its contents |
| ConfigBuilder.ResolvedAreParameters | src/simulation/config_builder.py:86-101 | every resolved argument is a constructor parameter other than `self` |
| ConfigBuilder.ResolvedValues | src/simulation/config_builder.py:88-100 | `n` is the size, every other argument its `algo_args` value at that size |
| ConfigBuilder.ResolvedCoversParameters | src/simulation/config_builder.py:88-101 | every parameter that is `n` or in `algo_args` is resolved; the others are left out |
| ConfigBuilder.BudgetText | src/simulation/config_builder.py:111-116 | `budget_description` when truthy, else the callable's `__name__`, else `str(budget)` |
| ConfigBuilder.ResolveBudget | src/simulation/config_builder.py:105-116 | without an override the benchmark's budget and no description; with one, its value at `n` and its text |
| ConfigBuilder.ArgDescription | src/simulation/config_builder.py:120-130 | the given description, else a callable's non-lambda `__name__`, else `<expr>` for a lambda or a nameless callable, else for a literal its `str` |
| ConfigBuilder.Parts | src/simulation/config_builder.py:119-133 | `n=<n>` first, one `k=desc` per argument in `algo_args` order, `budget=<desc>` last only when truthy |
| ConfigBuilder.ArgParts | src/simulation/config_builder.py:120-131 | one `k=<desc>` per argument, in `algo_args` order |
| ConfigBuilder.Join | src/simulation/config_builder.py:134 | `", ".join(parts)` |
| ConfigBuilder.Description | src/simulation/config_builder.py:134 | `f"{algorithm}({', '.join(parts)})"`; `DescriptionNamesSize` states how it starts and ends |
| ConfigBuilder.DescriptionNamesSize | src/simulation/config_builder.py:119-134 | the description starts `algorithm(n=<n>` followed by `,` or `)`, and ends with `)` |
| ConfigBuilder.PartsDescribe | src/simulation/config_builder.py:119-134 | any parts list headed by `n=<n>` yields a description that starts `algorithm(n=<n>` followed by `,` or `)` and ends with `)` |
| ConfigBuilder.MakeJob | src/simulation/config_builder.py:86-147 | the job for size `n` has the sweep's algorithm, benchmark and reps, and is described by its size |
| ConfigBuilder.Sweep | src/simulation/config_builder.py:83-147 | the jobs of an accepted sweep; `SweepOnePerSize` states one job per size, in order |
| ConfigBuilder.SweepOnePerSize | src/simulation/config_builder.py:83-147 | exactly one job per size, in order |
| ConfigBuilder.AllDescribedAfterSweep | src/simulation/config_builder.py:83-147 | appending a sweep keeps every job described by its own algorithm and size |
| ConfigBuilder.Arithmetic | src/simulation/config_builder.py:196 | `range(start, stop, step)`: `start + i * step`, stopping at the first value past `stop` |
| ConfigBuilder.PyRange | src/simulation/config_builder.py:196 | a zero step is refused |
| ConfigBuilder.InsertSorted | src/simulation/config_builder.py:242 | inserting into an increasing list keeps it increasing and adds exactly the new element |
| ConfigBuilder.SortedSet | src/simulation/config_builder.py:242 | `sorted(set(values))` is strictly increasing with exactly the given elements |
| ConfigBuilder.IncreasingUnique | src/simulation/config_builder.py:242 | a strictly increasing list is fixed by its elements |
| ConfigBuilder.RangeValues | src/simulation/config_builder.py:230-242 | `ValueError` for `log` without `num`, `linear` without `step`, any other type, and a zero step; else sorted and de-duplicated sizes |
| ConfigBuilder.Defaults | src/simulation/config_builder.py:291-295 | the dictionary comprehension of `get_defaults`; `DefaultsMeaning` states its contents |
| ConfigBuilder.DefaultsMeaning | src/simulation/config_builder.py:289-295 | the defaults are exactly those of the parameters other than `self` that have one |
| ConfigBuilder.GetDefaults | src/simulation/config_builder.py:282-295 | `ValueError` exactly for an unknown algorithm |
| ConfigBuilder.DefaultsOfAlgorithms | src/simulation/config_builder.py:288-295 | only `u` of DEGA_B and DEGA_Limit has a default, `None` |
| ConfigBuilder.WrittenJobLoadsBack | src/simulation/config_builder.py:136-147 | a job the builder writes is read back unchanged by the loader |
| ConfigBuilder.JobSuiteBuilder.constructor | src/simulation/config_builder.py:38-39 | no jobs |
| ConfigBuilder.JobSuiteBuilder.CheckParameters | src/simulation/config_builder.py:77-81 | the parameter loop finds the first invalid key |
| ConfigBuilder.JobSuiteBuilder.ResolveArguments | src/simulation/config_builder.py:86-101 | the parameter loop computes `resolved_args` |
| ConfigBuilder.JobSuiteBuilder.DescribeArguments | src/simulation/config_builder.py:119-133 | the loop builds `parts` |
| ConfigBuilder.JobSuiteBuilder.CheckSweep | src/simulation/config_builder.py:65-81 | the checks in order |
| ConfigBuilder.JobSuiteBuilder.BuildJob | src/simulation/config_builder.py:86-147 | the body of the size loop builds `MakeJob` |
| ConfigBuilder.JobSuiteBuilder.AddSweep | src/simulation/config_builder.py:41-147 | a refused sweep leaves the jobs unchanged; an accepted one appends exactly one job per size, in order |
| ConfigBuilder.JobSuiteBuilder.AppendSweep | src/simulation/config_builder.py:83-147 | the size loop appends the sweep |
| ConfigBuilder.JobSuiteBuilder.AddLinearSweep | src/simulation/config_builder.py:180-206 | the sizes `range(n_start, n_end + 1, step)`; a zero step is refused first |
| ConfigBuilder.JobSuiteBuilder.AddLogSweep | src/simulation/config_builder.py:149-178 | the log points, sorted and de-duplicated |
| ConfigBuilder.JobSuiteBuilder.AddRangeSweep | src/simulation/config_builder.py:208-252 | the range checks come first and leave the jobs unchanged; then as `add_sweep` on the range's sizes |
| ConfigBuilder.JobSuiteBuilder.Jobs | src/simulation/config_builder.py:254-256 | the built jobs, each described by its own algorithm and size |
| Runner.DataRoot | src/simulation/runner.py:29-31 | `data_dir`, one level deeper (`run_name`) exactly when the run is named |
| Runner.Hashed | src/simulation/runner.py:150 | every entry but `problem` |
| Runner.JobKey | src/simulation/runner.py:149-152 | the digest of the entries other than `problem`; `JobKeyIgnoresProblem` states that `problem` does not affect it |
| Runner.JobKeyIgnoresProblem | src/simulation/runner.py:149-152 | jobs that agree except on `problem` get the same key |
| Runner.Component | src/simulation/runner.py:156 | `KeyError` for a missing entry, `TypeError` for a non-string |
| Runner.ResultPath | src/simulation/runner.py:154-156 | `root/<algorithm>/<benchmark_name>/<key>.npz`; else the error of `algorithm` when that component fails, else the error of `benchmark_name` |
| Runner.Partition | src/simulation/runner.py:46-53 | the first loop of `run_jobs`; `PartitionFails`, `PartitionSplits` and `PartitionKeepsJobs` state its meaning |
| Runner.PartitionFails | src/simulation/runner.py:47-53 | the split fails exactly when some job has no path, with the first such error |
| Runner.PartitionStep | src/simulation/runner.py:47-53 | one job: cached when not forced and its path exists, else scheduled |
| Runner.PartitionSplits | src/simulation/runner.py:47-53 | cached statuses carry the existing checked path; scheduled jobs keep their path and algorithm |
| Runner.PartitionKeepsJobs | src/simulation/runner.py:47-53 | every job lands on exactly one side |
| Runner.ForceCachesNothing | src/simulation/runner.py:47-53 | with `force` nothing is cached |
| Runner.PartitionErrorSticks | src/simulation/runner.py:47-53 | an error in a prefix is the error of the split |
| Runner.Find | src/simulation/runner.py:62 | the position of the algorithm's group, or none exists |
| Runner.AddToGroup | src/simulation/runner.py:62 | `alg_groups.setdefault(job["algorithm"], []).append((job, path))` |
| Runner.GroupAll | src/simulation/runner.py:60-62 | `alg_groups` after the grouping loop; `GroupsByAlgorithm` and `GroupsCoverTasks` state its meaning |
| Runner.Flatten | src/simulation/runner.py:76-81 | the submission order of the futures, group after group |
| Runner.GroupsCoverTasks | src/simulation/runner.py:60-81 | every scheduled task is submitted exactly once |
| Runner.GroupsCoverJobs | src/simulation/runner.py:60-81 | every scheduled job is submitted exactly once |
| Runner.GroupsByAlgorithm | src/simulation/runner.py:60-62 | groups have distinct algorithms, are non-empty, and hold only their algorithm's jobs |
| Runner.SettleAll | src/simulation/runner.py:83-92 | one status per task, in submission order |
| Runner.EveryJobReported | src/simulation/runner.py:47-92 | every input job appears exactly once in the returned list |
| Runner.RunJobsSpec | src/simulation/runner.py:33-101 | the value `run_jobs` returns; `RunJobsFails`, `EveryJobReported`, `StatusesAreWellFormed`, `ForceReportsNoCache` and `AllCachedReturnsCache` state its meaning |
| Runner.RunJobsFails | src/simulation/runner.py:47-53 | `run_jobs` raises exactly when some job has no result path |
| Runner.StatusesAreWellFormed | src/simulation/runner.py:47-92 | each status is cached with its existing path, success with its checked path, or `failed:` with no path |
| Runner.ForceReportsNoCache | src/simulation/runner.py:47-92 | with `force` no status is "cached" |
| Runner.AllCachedReturnsCache | src/simulation/runner.py:47-57 | with every result present and no `force`, exactly the cached statuses, in job order |
| Runner.Repetitions | src/simulation/runner.py:115-121 | the first `k` repetitions; `RepetitionsCollectRuns` and `RepetitionsErrorSticks` state their meaning |
| Runner.RepetitionsCollectRuns | src/simulation/runner.py:115-121 | the repetitions succeed exactly when every run does (and, for `k > 0`, the job has `algorithm` and `algo_args`), and collect the `k` runs in order |
| Runner.RepetitionsErrorSticks | src/simulation/runner.py:115-121 | a failed repetition ends the loop with its error |
| Runner.MetadataOf | src/simulation/runner.py:133-146 | the metadata dictionary of a job with every field it reads; `MetadataRecordsJob` states what it records |
| Runner.MetadataRecordsJob | src/simulation/runner.py:133-146 | the metadata records the job's `n`, `reps` and `algo_args` |
| Runner.Metadata | src/simulation/runner.py:133-146 | `KeyError` exactly when a read field is missing; on success the metadata dictionary, all serialisable |
| Runner.RunSingleSpec | src/simulation/runner.py:103-147 | what `_run_single` does with a job; `RunSingleWritesCheckedPath` and `RunSingleErrors` state its meaning |
| Runner.RunSingleWritesCheckedPath | src/simulation/runner.py:103-147 | a saved job is written to the path `run_jobs` checks and holds one result per repetition (`reps`, none when negative) in order |
| Runner.RunSingleErrors | src/simulation/runner.py:103-147 | missing `problem`/`optimum`/`max_evals` is a `KeyError`, a non-integer `reps` a `TypeError`; a job without `reps` fails, although `job.get("reps", 1)` runs it once |
| Runner.Runner.constructor | src/simulation/runner.py:22-27 | stores the directory, run name and worker count |
| Runner.Runner.RunJobs | src/simulation/runner.py:33-101 | the loops compute `RunJobsSpec`: split, group, settle, merge |
| Runner.Runner.GroupTasks | src/simulation/runner.py:60-62 | the `setdefault` loop computes `GroupAll` |
| Runner.Runner.Settle | src/simulation/runner.py:83-92 | the `as_completed` loop computes `SettleAll` |
| Runner.Runner.RunSingle | src/simulation/runner.py:103-147 | the repetition loop and file write compute `RunSingleSpec` |

## Left out

- Printing, `tqdm` bars, stdout redirection, JSON files, `np.savez` and directory creation are left out. They are I/O. A written file is a `Saved` value, and a read file is its parsed `jobs` list.
- The process pool is a sequential loop in submission order. The order in which `as_completed` yields the futures is not modelled, so the statuses of the run tasks follow submission order.
- md5 and the sorted JSON text it hashes are an uninterpreted function of the entries other than `problem`. Collision resistance is not modelled.
- `log(n)` and `np.logspace` are not computed. They come in as a `real` and as the list of log points, and `math.log` of `n <= 0` is not modelled. `_default_budget`, the `u` defaults and `int(hamm_dist * log(n))` are modelled on the given value through `Numeric.Trunc`.
- Fitness values are integers, not floats. The fitness functions LeadingOnes, OneMax, MIVS and LFHW are not part of this model; the registry takes them as given functions. JUMP is registered with the two-argument `jump_m`, which a run would call with one argument. Only `jump_m` with an explicit `m` is modelled.
- The distribution of random outcomes, and claims about it, are not modelled. The rates `chi/n`, `1/lamb`, `0.5` and `1/hamm_dist` only label the mask bits. Their divisions by zero are modelled: `ZeroDivisionError` for `n == 0` and `lamb == 0`; `1/hamm_dist` never divides by zero (`DegaA.RefinementDistancePositive`).
- The `eps` parameter of `run`, the `__str__` methods and the `Algorithm` base class are left out; none affects a result.
- `AlgorithmFactory.Registry.Create` does not model the constructor rejecting unknown keyword arguments (`TypeError`). It returns the class paired with the arguments.
- AlgorithmFactory registration happens at import time and in import order. The registry is modelled empty, with `Register` calls made by the caller.
- `Runner.Runner.RunJobs` abstracts `_run_single` and the pool as a given outcome per task. The bars dictionary and the `sorted(alg_groups)` order of the bars are left out.
- `Runner.Repetitions` abstracts `create` plus `run` of one repetition as a given function `attempt` of the repetition index.
- `Runner.Value` covers strings, integers, `None` and opaque objects. JSON floats, lists and nested dictionaries are only opaque values.
- `Runner.DataRoot` treats a path as a list of components. Path normalisation (`Path('')`, `..`, absolute parts) is not modelled.
- `ConfigBuilder.ResolveArgs` takes a callable argument as an integer function of `n` that stands for `int(raw(n))`, the cast of config_builder.py:98-99 applied. The sweeps' callables return floats, such as `log(n)` and `n**(2/3)`, which the source truncates that way; float results themselves are not modelled, nor a float-defaulted parameter, which the source would leave uncast.
- `ConfigBuilder.JobSuiteBuilder.AddSweep` does not model float sizes or a float `reps`; `int(n)` and `int(reps)` are the identity.
- `ConfigBuilder.JobSuiteBuilder.AddLogSweep` takes the `np.logspace(..., dtype=int)` points as given.
- `Arguments.ConvertEntry` does not model JSON `null` or non-integer values for `n`, `reps` or `max_evals`: such fields are either missing or integers. A missing `n` is the `TypeError` of `int(None)`.
- `Umda.ArgSort` breaks ties in index order. On ties numpy's default sort may order equal fitnesses differently, and then pick different elites. The elites are still the fittest; only which of the equally fit samples are kept may differ.
- `Umda.Umda.Run` leaves `probabilities` at the last completed generation's value when a generation raises. On an empty elite set (umda.py:39-51) the source has already replaced them by numpy's `NaN` mean before `elite_indices[-1]` raises `IndexError`, so a later run would sample from `NaN` probabilities. With `n == 0` the source's mean is the empty vector, so nothing observable differs there.
- `Umda.Mean` does not model numpy's `NaN` mean of an empty elite set. That case always ends in an exception here: `IndexError`, or `ZeroDivisionError` first when `n == 0`.
