/**
 * Variation operators and replacement rules shared by the (2+1) algorithms.
 *
 * Every random draw of the original functions is an explicit argument here:
 * a mask (`seq<bool>`, one entry per position, true where the random number
 * fell under the rate) for the bit-vector operators, and an index `choice`
 * for `random.choice` (the element at `choice % |list|` is taken). Each
 * contract therefore holds for every mask and every choice.
 */
module Helper {

  /** A candidate solution: a vector whose entries are all 0 or 1. */
  predicate IsBits(x: seq<int>) {
    forall i :: 0 <= i < |x| ==> x[i] == 0 || x[i] == 1
  }

  function Max(a: int, b: int): int { if a >= b then a else b }

  function Min(a: int, b: int): int { if a <= b then a else b }

  /** Number of positions at which `u` and `v` differ (`np.count_nonzero(u != v)`). */
  function Hamming(u: seq<int>, v: seq<int>): (d: nat)
    requires |u| == |v|
    ensures d <= |u|
    ensures d == 0 <==> u == v
  {
    if |u| == 0 then 0
    else
      assert u == [u[0]] + u[1..] && v == [v[0]] + v[1..];
      (if u[0] != v[0] then 1 else 0) + Hamming(u[1..], v[1..])
  }

  lemma {:induction false} HammingSymmetric(u: seq<int>, v: seq<int>)
    requires |u| == |v|
    ensures Hamming(u, v) == Hamming(v, u)
  {
    if |u| > 0 {
      HammingSymmetric(u[1..], v[1..]);
    }
  }

  /** Number of true entries of a mask. */
  function CountTrue(mask: seq<bool>): (k: nat)
    ensures k <= |mask|
  {
    if mask == [] then 0 else (if mask[0] then 1 else 0) + CountTrue(mask[1..])
  }

  /** Two vectors differ exactly where the mask is set, so their distance is the mask's count. */
  lemma {:induction false} HammingOfMask(u: seq<int>, v: seq<int>, mask: seq<bool>)
    requires |u| == |v| == |mask|
    requires forall i :: 0 <= i < |u| ==> (u[i] != v[i] <==> mask[i])
    ensures Hamming(u, v) == CountTrue(mask)
  {
    if |u| > 0 {
      HammingOfMask(u[1..], v[1..], mask[1..]);
    }
  }

  /** `mutate`: flip every position the mask selects (`np.where(mask, 1 - x, x)`). */
  function Mutate(x: seq<int>, mask: seq<bool>): (r: seq<int>)
    requires |mask| == |x|
    ensures |r| == |x|
    ensures forall i :: 0 <= i < |x| ==> (r[i] != x[i] <==> mask[i])
    ensures forall i :: 0 <= i < |x| && mask[i] ==> r[i] == 1 - x[i]
    ensures IsBits(x) ==> IsBits(r)
  {
    seq(|x|, i requires 0 <= i < |x| => if mask[i] then 1 - x[i] else x[i])
  }

  /** A mutation moves the candidate by exactly as many positions as the mask selects. */
  lemma MutateDistance(x: seq<int>, mask: seq<bool>)
    requires |mask| == |x|
    ensures Hamming(Mutate(x, mask), x) == CountTrue(mask)
  {
    HammingOfMask(Mutate(x, mask), x, mask);
  }

  /**
   * `biased_crossover(x1, x2, p)`: take `x2[i]` where the mask is set and
   * `x1[i]` elsewhere (`np.where(mask, x2, x1)`).
   */
  function BiasedCrossover(x1: seq<int>, x2: seq<int>, mask: seq<bool>): (r: seq<int>)
    requires |x1| == |x2| == |mask|
    ensures |r| == |x1|
    ensures forall i :: 0 <= i < |x1| ==> r[i] == (if mask[i] then x2[i] else x1[i])
    ensures x1 == x2 ==> r == x1
    ensures IsBits(x1) && IsBits(x2) ==> IsBits(r)
  {
    seq(|x1|, i requires 0 <= i < |x1| => if mask[i] then x2[i] else x1[i])
  }

  /**
   * `uniform_crossover(p1, p2)` keeps `p1[i]` where the mask is set: it is the
   * biased crossover with the parents exchanged.
   */
  function UniformCrossover(p1: seq<int>, p2: seq<int>, mask: seq<bool>): (r: seq<int>)
    requires |p1| == |p2| == |mask|
    ensures |r| == |p1|
    ensures forall i :: 0 <= i < |p1| ==> r[i] == p1[i] || r[i] == p2[i]
  {
    seq(|p1|, i requires 0 <= i < |p1| => if mask[i] then p1[i] else p2[i])
  }

  lemma UniformIsBiasedSwapped(p1: seq<int>, p2: seq<int>, mask: seq<bool>)
    requires |p1| == |p2| == |mask|
    ensures UniformCrossover(p1, p2, mask) == BiasedCrossover(p2, p1, mask)
  {
  }

  /** A vector each of whose entries comes from `x1` or `x2` lies on a shortest path between them. */
  lemma {:induction false} BetweenParents(r: seq<int>, x1: seq<int>, x2: seq<int>)
    requires |r| == |x1| == |x2|
    requires forall i :: 0 <= i < |r| ==> r[i] == x1[i] || r[i] == x2[i]
    ensures Hamming(r, x1) + Hamming(r, x2) == Hamming(x1, x2)
  {
    if |r| > 0 {
      BetweenParents(r[1..], x1[1..], x2[1..]);
    }
  }

  /** A crossover offspring is never farther from either parent than the parents are from each other. */
  lemma CrossoverBetween(x1: seq<int>, x2: seq<int>, mask: seq<bool>)
    requires |x1| == |x2| == |mask|
    ensures Hamming(BiasedCrossover(x1, x2, mask), x1) + Hamming(BiasedCrossover(x1, x2, mask), x2)
            == Hamming(x1, x2)
  {
    BetweenParents(BiasedCrossover(x1, x2, mask), x1, x2);
  }

  // ---------------------------------------------------------------------
  // Replacement rules
  // ---------------------------------------------------------------------

  /** Two individuals with their fitnesses, in the order a rule returns them. */
  datatype Pair = Pair(a: seq<int>, b: seq<int>, fa: int, fb: int)

  function Flip(p: Pair): Pair { Pair(p.b, p.a, p.fb, p.fa) }

  /** The pair put in the order `fa >= fb` (swapped only when `fb > fa`). */
  function Oriented(p: Pair): (r: Pair)
    ensures r.fa >= r.fb
    ensures r == p || r == Flip(p)
    ensures p.fa >= p.fb ==> r == p
  {
    if p.fb > p.fa then Flip(p) else p
  }

  /** The lexicographic score `(max(fu, fv), min(fu, fv))` of a pair. */
  function Score(p: Pair): (int, int) { (Max(p.fa, p.fb), Min(p.fa, p.fb)) }

  /** Lexicographic order on scores. */
  predicate ScoreLess(s: (int, int), t: (int, int)) {
    s.0 < t.0 || (s.0 == t.0 && s.1 < t.1)
  }

  /** One entry of the candidate list: the pair, its Hamming distance, and whether it holds the offspring `x3`. */
  datatype Candidate = Candidate(pair: Pair, dist: nat, usesOffspring: bool)

  /** The three pairs, in the order the original builds them: (x1, x2), (x1, x3), (x2, x3). */
  function Pairs(x1: seq<int>, x2: seq<int>, x3: seq<int>, f1: int, f2: int, f3: int): (cs: seq<Candidate>)
    requires |x1| == |x2| == |x3|
    ensures |cs| == 3
    ensures forall c :: c in cs ==> |c.pair.a| == |c.pair.b| == |x1| && c.dist == Hamming(c.pair.a, c.pair.b)
  {
    [ Candidate(Pair(x1, x2, f1, f2), Hamming(x1, x2), false),
      Candidate(Pair(x1, x3, f1, f3), Hamming(x1, x3), true),
      Candidate(Pair(x2, x3, f2, f3), Hamming(x2, x3), true) ]
  }

  /** `x` with fitness `fx` is one of the three inputs with its own fitness. */
  predicate FromInputs(x: seq<int>, fx: int, x1: seq<int>, x2: seq<int>, x3: seq<int>, f1: int, f2: int, f3: int) {
    (x == x1 && fx == f1) || (x == x2 && fx == f2) || (x == x3 && fx == f3)
  }

  /** A candidate survives the cascade: its score is maximal, and its distance is maximal among equal scores. */
  predicate Optimal(c: Candidate, cs: seq<Candidate>) {
    && (forall d :: d in cs ==> !ScoreLess(Score(c.pair), Score(d.pair)))
    && (forall d :: d in cs && Score(d.pair) == Score(c.pair) ==> d.dist <= c.dist)
  }

  /** `max(item[4] for item in candidates)`. */
  function BestScore(cs: seq<Candidate>): (s: (int, int))
    requires |cs| > 0
    ensures exists c :: c in cs && Score(c.pair) == s
    ensures forall c :: c in cs ==> !ScoreLess(s, Score(c.pair))
  {
    if |cs| == 1 then Score(cs[0].pair)
    else
      var rest := BestScore(cs[1..]);
      if ScoreLess(Score(cs[0].pair), rest) then rest else Score(cs[0].pair)
  }

  /** `[item for item in cs if item.score == s]`. */
  function WithScore(cs: seq<Candidate>, s: (int, int)): (r: seq<Candidate>)
    ensures forall c :: c in r <==> c in cs && Score(c.pair) == s
  {
    if cs == [] then []
    else (if Score(cs[0].pair) == s then [cs[0]] else []) + WithScore(cs[1..], s)
  }

  /** `max(item.dist for item in cs)`. */
  function MaxDistance(cs: seq<Candidate>): (m: nat)
    requires |cs| > 0
    ensures exists c :: c in cs && c.dist == m
    ensures forall c :: c in cs ==> c.dist <= m
  {
    if |cs| == 1 then cs[0].dist
    else
      var rest := MaxDistance(cs[1..]);
      if cs[0].dist < rest then rest else cs[0].dist
  }

  /** `[item for item in cs if item.dist == m]`. */
  function WithDistance(cs: seq<Candidate>, m: nat): (r: seq<Candidate>)
    ensures forall c :: c in r <==> c in cs && c.dist == m
  {
    if cs == [] then []
    else (if cs[0].dist == m then [cs[0]] else []) + WithDistance(cs[1..], m)
  }

  /**
   * The list `random.choice` draws from: the best-scoring candidates, narrowed
   * to the largest distance when there is more than one. It holds exactly the
   * optimal candidates.
   */
  function Finalists(cs: seq<Candidate>): (r: seq<Candidate>)
    requires |cs| > 0
    ensures |r| > 0
    ensures forall c :: c in r ==> c in cs
  {
    var s := BestScore(cs);
    var best := WithScore(cs, s);
    var c0 :| c0 in cs && Score(c0.pair) == s;
    assert c0 in best;
    if |best| > 1 then
      var m := MaxDistance(best);
      WithDistance(best, m)
    else
      best
  }

  /** The finalists are exactly the optimal candidates. */
  lemma FinalistsAreOptimal(cs: seq<Candidate>)
    requires |cs| > 0
    ensures forall c :: c in Finalists(cs) <==> c in cs && Optimal(c, cs)
  {
    var s := BestScore(cs);
    var best := WithScore(cs, s);
    assert forall c :: c in cs && !ScoreLess(Score(c.pair), s) ==> Score(c.pair) == s;
    if |best| > 1 {
      var m := MaxDistance(best);
      assert Finalists(cs) == WithDistance(best, m);
    } else {
      var c0 :| c0 in cs && Score(c0.pair) == s;
      assert c0 in best;
      assert Finalists(cs) == best;
    }
  }

  /** The finalist that `random.choice` returns for the draw `choice`. */
  function Chosen(cs: seq<Candidate>, choice: nat): (c: Candidate)
    requires |cs| > 0
    ensures c in cs
  {
    var fs := Finalists(cs);
    assert fs[choice % |fs|] in fs;
    fs[choice % |fs|]
  }

  /** Whatever the draw, the chosen candidate is optimal. */
  lemma ChosenOptimal(cs: seq<Candidate>, choice: nat)
    requires |cs| > 0
    ensures Optimal(Chosen(cs, choice), cs)
  {
    var fs := Finalists(cs);
    FinalistsAreOptimal(cs);
    assert fs[choice % |fs|] in fs;
  }

  /** `random.choice(best) if len(best) > 1 else best[0]`, over the finalists. */
  function LimitChoice(cs: seq<Candidate>, choice: nat): (c: Candidate)
    requires |cs| > 0
    ensures c in cs
  {
    var best := Finalists(cs);
    var c := if |best| > 1 then best[choice % |best|] else best[0];
    assert c in best;
    c
  }

  /** Taking `best[0]` for a single finalist is what the draw would give, so both rules choose alike. */
  lemma LimitChoiceIsChosen(cs: seq<Candidate>, choice: nat)
    requires |cs| > 0
    ensures LimitChoice(cs, choice) == Chosen(cs, choice)
  {
    var best := Finalists(cs);
    if |best| == 1 {
      assert choice % |best| == 0;
    }
  }

  lemma ModBelow(j: nat, k: nat)
    requires j < k
    ensures j % k == j
  {
  }

  /** Every optimal candidate is the outcome of some draw: the random tie-break may pick any of them. */
  lemma EveryOptimalIsChosen(cs: seq<Candidate>, c: Candidate)
    requires |cs| > 0
    requires c in cs && Optimal(c, cs)
    ensures exists choice: nat :: Chosen(cs, choice) == c
  {
    var fs := Finalists(cs);
    FinalistsAreOptimal(cs);
    assert c in fs;
    var j :| 0 <= j < |fs| && fs[j] == c;
    ModBelow(j, |fs|);
    assert Chosen(cs, j) == c;
  }

  /**
   * `select_population`: keep the pair of {x1, x2, x3} with the maximal
   * `(max, min)` fitness score, then the maximal Hamming distance, then the
   * one the draw picks; return it ordered so that `fa >= fb`.
   */
  function SelectPopulation(x1: seq<int>, x2: seq<int>, x3: seq<int>, f1: int, f2: int, f3: int,
                            choice: nat): (r: Pair)
    requires |x1| == |x2| == |x3|
    ensures r.fa >= r.fb
    ensures |r.a| == |x1| && |r.b| == |x1|
    ensures FromInputs(r.a, r.fa, x1, x2, x3, f1, f2, f3) && FromInputs(r.b, r.fb, x1, x2, x3, f1, f2, f3)
  {
    var cs := Pairs(x1, x2, x3, f1, f2, f3);
    var chosen := Chosen(cs, choice);
    assert chosen == cs[0] || chosen == cs[1] || chosen == cs[2];
    Oriented(chosen.pair)
  }

  /** The returned pair is an optimal candidate, put in order. */
  lemma SelectPopulationOptimal(x1: seq<int>, x2: seq<int>, x3: seq<int>, f1: int, f2: int, f3: int,
                                choice: nat)
    requires |x1| == |x2| == |x3|
    ensures exists c :: c in Pairs(x1, x2, x3, f1, f2, f3) && Optimal(c, Pairs(x1, x2, x3, f1, f2, f3))
                        && SelectPopulation(x1, x2, x3, f1, f2, f3, choice) == Oriented(c.pair)
  {
    var c := Chosen(Pairs(x1, x2, x3, f1, f2, f3), choice);
    ChosenOptimal(Pairs(x1, x2, x3, f1, f2, f3), choice);
    assert SelectPopulation(x1, x2, x3, f1, f2, f3, choice) == Oriented(c.pair);
  }

  /** The fittest of the three individuals always survives, in the first slot. */
  lemma SelectPopulationKeepsBest(x1: seq<int>, x2: seq<int>, x3: seq<int>, f1: int, f2: int, f3: int,
                                  choice: nat)
    requires |x1| == |x2| == |x3|
    ensures SelectPopulation(x1, x2, x3, f1, f2, f3, choice).fa == Max(f1, Max(f2, f3))
  {
    var cs := Pairs(x1, x2, x3, f1, f2, f3);
    var c := Chosen(cs, choice);
    ChosenOptimal(cs, choice);
    assert SelectPopulation(x1, x2, x3, f1, f2, f3, choice) == Oriented(c.pair);
    ChosenKeepsBest(x1, x2, x3, f1, f2, f3, c);
  }

  /** An optimal candidate holds the largest of the three fitnesses. */
  lemma ChosenKeepsBest(x1: seq<int>, x2: seq<int>, x3: seq<int>, f1: int, f2: int, f3: int, c: Candidate)
    requires |x1| == |x2| == |x3|
    requires c in Pairs(x1, x2, x3, f1, f2, f3) && Optimal(c, Pairs(x1, x2, x3, f1, f2, f3))
    ensures Max(c.pair.fa, c.pair.fb) == Max(f1, Max(f2, f3))
  {
    var cs := Pairs(x1, x2, x3, f1, f2, f3);
    assert cs[0] in cs && cs[1] in cs && cs[2] in cs;
    assert !ScoreLess(Score(c.pair), Score(cs[0].pair));
    assert !ScoreLess(Score(c.pair), Score(cs[1].pair));
    assert c == cs[0] || c == cs[1] || c == cs[2];
  }

  /** The pair chosen by `select_population` beats or ties every pair on score, and on distance among equal scores. */
  lemma SelectPopulationIsBest(x1: seq<int>, x2: seq<int>, x3: seq<int>, f1: int, f2: int, f3: int,
                               choice: nat)
    requires |x1| == |x2| == |x3|
    ensures var r := SelectPopulation(x1, x2, x3, f1, f2, f3, choice);
            && (forall c :: c in Pairs(x1, x2, x3, f1, f2, f3) ==> !ScoreLess(Score(r), Score(c.pair)))
            && (forall c :: c in Pairs(x1, x2, x3, f1, f2, f3) && Score(c.pair) == Score(r) ==>
                  c.dist <= Hamming(r.a, r.b))
  {
    var cs := Pairs(x1, x2, x3, f1, f2, f3);
    var r := SelectPopulation(x1, x2, x3, f1, f2, f3, choice);
    var c := Chosen(cs, choice);
    ChosenOptimal(cs, choice);
    assert r == Oriented(c.pair);
    assert Score(r) == Score(c.pair);
    HammingSymmetric(c.pair.a, c.pair.b);
    assert Hamming(r.a, r.b) == c.dist;
  }

  /** Conversely, every pair that survives the cascade is returned for some draw. */
  lemma SelectPopulationReachesEveryOptimal(x1: seq<int>, x2: seq<int>, x3: seq<int>,
                                            f1: int, f2: int, f3: int, c: Candidate)
    requires |x1| == |x2| == |x3|
    requires c in Pairs(x1, x2, x3, f1, f2, f3) && Optimal(c, Pairs(x1, x2, x3, f1, f2, f3))
    ensures exists choice: nat :: SelectPopulation(x1, x2, x3, f1, f2, f3, choice) == Oriented(c.pair)
  {
    var cs := Pairs(x1, x2, x3, f1, f2, f3);
    EveryOptimalIsChosen(cs, c);
    var choice: nat :| Chosen(cs, choice) == c;
    assert SelectPopulation(x1, x2, x3, f1, f2, f3, choice) == Oriented(c.pair);
  }

  /** Result of `select_population_limit`: the pair (not reordered) and the new limit counter. */
  datatype LimitPick = LimitPick(pair: Pair, newL: int)

  /**
   * `select_population_limit`: the same cascade as `select_population`, without
   * the final reordering; the limit counter is reset to 0 when the chosen pair
   * holds the offspring `x3`, and kept otherwise.
   */
  function SelectPopulationLimit(x1: seq<int>, x2: seq<int>, x3: seq<int>, f1: int, f2: int, f3: int,
                                 l: int, choice: nat): (r: LimitPick)
    requires |x1| == |x2| == |x3|
    ensures |r.pair.a| == |x1| && |r.pair.b| == |x1|
    ensures FromInputs(r.pair.a, r.pair.fa, x1, x2, x3, f1, f2, f3)
    ensures FromInputs(r.pair.b, r.pair.fb, x1, x2, x3, f1, f2, f3)
    ensures r.newL == 0 || r.newL == l
    ensures r.pair != Pair(x1, x2, f1, f2) ==> r.newL == 0
  {
    var cs := Pairs(x1, x2, x3, f1, f2, f3);
    var chosen := LimitChoice(cs, choice);
    assert chosen == cs[0] || chosen == cs[1] || chosen == cs[2];
    LimitPick(chosen.pair, if chosen.usesOffspring then 0 else l)
  }

  /** The rule picks an optimal candidate and resets the counter exactly when that candidate holds the offspring. */
  lemma SelectPopulationLimitOptimal(x1: seq<int>, x2: seq<int>, x3: seq<int>, f1: int, f2: int, f3: int,
                                     l: int, choice: nat)
    requires |x1| == |x2| == |x3|
    ensures var r := SelectPopulationLimit(x1, x2, x3, f1, f2, f3, l, choice);
            exists c :: c in Pairs(x1, x2, x3, f1, f2, f3) && Optimal(c, Pairs(x1, x2, x3, f1, f2, f3))
                        && r.pair == c.pair && r.newL == (if c.usesOffspring then 0 else l)
  {
    var cs := Pairs(x1, x2, x3, f1, f2, f3);
    LimitChoiceIsChosen(cs, choice);
    ChosenOptimal(cs, choice);
  }

  /** The fittest of the three individuals always survives, though not necessarily first. */
  lemma SelectPopulationLimitKeepsBest(x1: seq<int>, x2: seq<int>, x3: seq<int>, f1: int, f2: int, f3: int,
                                       l: int, choice: nat)
    requires |x1| == |x2| == |x3|
    ensures var r := SelectPopulationLimit(x1, x2, x3, f1, f2, f3, l, choice);
            Max(r.pair.fa, r.pair.fb) == Max(f1, Max(f2, f3))
  {
    var cs := Pairs(x1, x2, x3, f1, f2, f3);
    LimitChoiceIsChosen(cs, choice);
    ChosenOptimal(cs, choice);
    ChosenKeepsBest(x1, x2, x3, f1, f2, f3, LimitChoice(cs, choice));
  }

  /** Unlike `select_population`, the limit rule may return the worse individual first. */
  lemma SelectPopulationLimitKeepsOrder()
    ensures SelectPopulationLimit([0], [0], [1], 0, 1, 5, 7, 0) == LimitPick(Pair([0], [1], 1, 5), 0)
  {
    var cs := Pairs([0], [0], [1], 0, 1, 5);
    assert BestScore(cs) == (5, 1);
    var best := Finalists(cs);
    assert best == [cs[2]];
  }

  /**
   * `select_population_dega_a(offspring, parent, other, ...)`: deterministic;
   * the second slot always keeps `other`; the offspring replaces the parent when
   * strictly better, or when equally fit and strictly farther from `other`.
   */
  function SelectPopulationDegaA(offspring: seq<int>, parent: seq<int>, other: seq<int>,
                                 fOff: int, fParent: int, fOther: int): (r: Pair)
    requires |offspring| == |parent| == |other|
    ensures r.b == other && r.fb == fOther
    ensures fOff < fParent ==> r == Pair(parent, other, fParent, fOther)
    ensures fOff > fParent ==> r == Pair(offspring, other, fOff, fOther)
    ensures fOff == fParent ==>
              (r.a == offspring <== Hamming(offspring, other) > Hamming(parent, other))
              && (Hamming(offspring, other) <= Hamming(parent, other) ==> r.a == parent)
    ensures r.fa == Max(fOff, fParent)
  {
    if fOff < fParent then Pair(parent, other, fParent, fOther)
    else if fOff == fParent then
      if Hamming(offspring, other) > Hamming(parent, other) then Pair(offspring, other, fOff, fOther)
      else Pair(parent, other, fParent, fOther)
    else Pair(offspring, other, fOff, fOther)
  }

  /**
   * `select_population_alter_parent(other, parent, offspring, ...)`: `other`
   * is always returned first; the second slot gets the fitter of parent and
   * offspring, on equal fitness the one farther from `other`, and on an exact
   * distance tie the one the draw picks.
   */
  function SelectPopulationAlterParent(other: seq<int>, parent: seq<int>, offspring: seq<int>,
                                       fOther: int, fParent: int, fOff: int, choice: nat): (r: Pair)
    requires |other| == |parent| == |offspring|
    ensures r.a == other && r.fa == fOther
    ensures fOff > fParent ==> r.b == offspring && r.fb == fOff
    ensures fOff < fParent ==> r.b == parent && r.fb == fParent
    ensures fOff == fParent && Hamming(other, parent) > Hamming(other, offspring) ==> r.b == parent
    ensures fOff == fParent && Hamming(other, parent) < Hamming(other, offspring) ==> r.b == offspring
    ensures (r.b == parent && r.fb == fParent) || (r.b == offspring && r.fb == fOff)
    ensures r.fb == Max(fOff, fParent)
  {
    if fOff > fParent then Pair(other, offspring, fOther, fOff)
    else if fOff == fParent then
      var hParent := Hamming(other, parent);
      var hOffspring := Hamming(other, offspring);
      if hParent > hOffspring then Pair(other, parent, fOther, fParent)
      else if hParent == hOffspring then
        [Pair(other, parent, fOther, fParent), Pair(other, offspring, fOther, fOff)][choice % 2]
      else Pair(other, offspring, fOther, fOff)
    else Pair(other, parent, fOther, fParent)
  }

  /** On an exact distance tie both outcomes of `select_population_alter_parent` are possible. */
  lemma AlterParentTieEitherWay(other: seq<int>, parent: seq<int>, offspring: seq<int>,
                                fOther: int, f: int)
    requires |other| == |parent| == |offspring|
    requires Hamming(other, parent) == Hamming(other, offspring)
    ensures SelectPopulationAlterParent(other, parent, offspring, fOther, f, f, 0).b == parent
    ensures SelectPopulationAlterParent(other, parent, offspring, fOther, f, f, 1).b == offspring
  {
  }
}
