/** Parent selection of ga_shapes/selection.py. Individuals are identified by their index
    in the population list; a selection returns that index. Tournament selection draws
    TOURNAMENT_SIZE distinct positions of zip(population, fitnesses) (the `sample`) and
    keeps the first of maximal fitness; softmax selection turns the fitnesses into
    probabilities, builds their cumulative distribution with its last entry forced to 1.0
    and picks the first index whose cumulative value exceeds the draw `r`. */
module Selection {
  import opened Config
  import opened Wrappers
  import opened Canvas

  datatype SelectionError =
    | SampleLargerThanPopulation  // random.sample raises ValueError
    | EmptyDistribution           // cdf[-1] = 1.0 on an empty array raises IndexError
    | IndexPastPopulation         // population[idx] raises IndexError
    | UnknownStrategy             // SELECTIONS[name] raises KeyError

  /** The first index of a maximal element, as Python's max and np.argmax return it. */
  function ArgMax(xs: seq<real>): (i: nat)
    requires |xs| > 0
    ensures i < |xs|
    ensures forall j :: 0 <= j < |xs| ==> xs[j] <= xs[i]
    ensures forall j :: 0 <= j < i ==> xs[j] < xs[i]
    decreases |xs|
  {
    if |xs| == 1 then 0
    else
      var k := ArgMax(xs[..|xs| - 1]);
      if xs[|xs| - 1] > xs[k] then |xs| - 1 else k
  }

  /** random.sample(range(n), k) as a list of positions: k distinct positions below n. */
  predicate IsSample(sample: seq<nat>, n: nat, k: nat) {
    && |sample| == k
    && (forall i :: 0 <= i < |sample| ==> sample[i] < n)
    && (forall i, j :: 0 <= i < j < |sample| ==> sample[i] != sample[j])
  }

  /** TournamentSelection.select: of the sampled candidates, the first of maximal
      fitness. zip stops at the shorter of the two lists. */
  function TournamentSelect(population: nat, fitnesses: seq<real>, sample: seq<nat>): (r: Result<nat, SelectionError>)
    requires TournamentSize <= Min(population, |fitnesses|) ==>
      IsSample(sample, Min(population, |fitnesses|), TournamentSize)
    ensures r.Failure? <==> TournamentSize > Min(population, |fitnesses|)
    ensures r.Failure? ==> r.error == SampleLargerThanPopulation
    ensures r.Success? ==> r.value < population && r.value < |fitnesses|
    ensures r.Success? ==>
      exists p :: 0 <= p < |sample| && sample[p] == r.value
        && (forall q :: 0 <= q < |sample| ==> fitnesses[sample[q]] <= fitnesses[r.value])
        && (forall q :: 0 <= q < p ==> fitnesses[sample[q]] < fitnesses[r.value])
  {
    if TournamentSize > Min(population, |fitnesses|) then Failure(SampleLargerThanPopulation)
    else
      var keys := seq(|sample|, i requires 0 <= i < |sample| => fitnesses[sample[i]]);
      var p := ArgMax(keys);
      assert forall q :: 0 <= q < |sample| ==> keys[q] == fitnesses[sample[q]];
      Success(sample[p])
  }

  /** The set of a list of distinct elements has as many elements as the list. */
  lemma {:induction false} DistinctCardinality(sample: seq<nat>)
    requires forall i, j :: 0 <= i < j < |sample| ==> sample[i] != sample[j]
    ensures |set i | 0 <= i < |sample| :: sample[i]| == |sample|
    decreases |sample|
  {
    if sample != [] {
      var init := sample[..|sample| - 1];
      DistinctCardinality(init);
      var s := set i | 0 <= i < |sample| :: sample[i];
      var t := set i | 0 <= i < |init| :: init[i];
      assert s == t + {sample[|sample| - 1]};
      assert sample[|sample| - 1] !in t;
    }
  }

  /** {0, ..., n - 1}. */
  function Range(n: nat): (r: set<nat>)
    ensures forall j: nat :: j in r <==> j < n
    ensures |r| == n
  {
    if n == 0 then {} else Range(n - 1) + {n - 1}
  }

  /** A subset as large as its superset is the whole superset. */
  lemma {:induction false} SubsetOfEqualSize(a: set<nat>, b: set<nat>)
    requires a <= b && |a| == |b|
    ensures a == b
  {
    if b - a != {} {
      var x :| x in b - a;
      assert a <= b - {x};
      SubsetCardinality(a, b - {x});
    }
  }

  lemma {:induction false} SubsetCardinality(a: set<nat>, b: set<nat>)
    requires a <= b
    ensures |a| <= |b|
  {
    assert b == a + (b - a);
  }

  /** A sample of n distinct positions below n contains every position. */
  lemma SampleCoversAll(sample: seq<nat>, n: nat)
    requires IsSample(sample, n, n)
    ensures forall j :: 0 <= j < n ==> j in sample
  {
    var s := set i | 0 <= i < |sample| :: sample[i];
    DistinctCardinality(sample);
    SubsetOfEqualSize(s, Range(n));
    forall j | j in Range(n)
      ensures j in sample
    {
      assert j in s;
    }
  }

  /** When the population is exactly TOURNAMENT_SIZE strong, the sample is the whole
      population and the tournament returns an individual of maximal fitness. */
  lemma TournamentOfWholePopulation(fitnesses: seq<real>, sample: seq<nat>)
    requires |fitnesses| == TournamentSize && IsSample(sample, TournamentSize, TournamentSize)
    ensures var r := TournamentSelect(|fitnesses|, fitnesses, sample);
      r.Success? && forall j :: 0 <= j < |fitnesses| ==> fitnesses[j] <= fitnesses[r.value]
  {
    var r := TournamentSelect(|fitnesses|, fitnesses, sample);
    SampleCoversAll(sample, TournamentSize);
    forall j | 0 <= j < |fitnesses|
      ensures fitnesses[j] <= fitnesses[r.value]
    {
      assert j in sample;
      var p :| 0 <= p < |sample| && sample[p] == j;
    }
  }

  // Softmax selection.

  /** np.exp, a floating-point library call, is a parameter of the model. */
  type Exp = real -> real

  /** All that is assumed of np.exp: it is positive at every fitness. */
  predicate PositiveOn(exp: Exp, fitnesses: seq<real>) {
    forall i :: 0 <= i < |fitnesses| ==> exp(fitnesses[i]) > 0.0
  }

  function Sum(xs: seq<real>): real
    decreases |xs|
  {
    if xs == [] then 0.0 else Sum(xs[..|xs| - 1]) + xs[|xs| - 1]
  }

  /** exps / np.sum(exps). */
  function Softmax(fitnesses: seq<real>, exp: Exp): (p: seq<real>)
    requires PositiveOn(exp, fitnesses)
    ensures |p| == |fitnesses|
  {
    if fitnesses == [] then [] else Normalised(Exps(fitnesses, exp))
  }

  /** np.exp(fitnesses). */
  function Exps(fitnesses: seq<real>, exp: Exp): (e: seq<real>)
    requires PositiveOn(exp, fitnesses)
    ensures |e| == |fitnesses| && forall i :: 0 <= i < |e| ==> e[i] > 0.0
  {
    seq(|fitnesses|, i requires 0 <= i < |fitnesses| => exp(fitnesses[i]))
  }

  /** xs / np.sum(xs) for a non-empty list of positive numbers. */
  function Normalised(xs: seq<real>): (p: seq<real>)
    requires |xs| > 0 && forall i :: 0 <= i < |xs| ==> xs[i] > 0.0
    ensures |p| == |xs|
  {
    SumPositive(xs);
    seq(|xs|, i requires 0 <= i < |xs| => xs[i] / Sum(xs))
  }

  predicate IsDistribution(p: seq<real>) {
    (forall i :: 0 <= i < |p| ==> p[i] >= 0.0) && Sum(p) == 1.0
  }

  lemma {:induction false} SumPositive(xs: seq<real>)
    requires |xs| > 0 && forall i :: 0 <= i < |xs| ==> xs[i] > 0.0
    ensures Sum(xs) > 0.0
    decreases |xs|
  {
    if |xs| > 1 {
      SumPositive(xs[..|xs| - 1]);
    }
  }

  /** Sum of xs[i] / d is Sum(xs) / d. */
  lemma {:induction false} SumScaled(xs: seq<real>, ys: seq<real>, d: real)
    requires d != 0.0 && |ys| == |xs| && forall i :: 0 <= i < |xs| ==> ys[i] == xs[i] / d
    ensures Sum(ys) == Sum(xs) / d
    decreases |xs|
  {
    if xs != [] {
      SumScaled(xs[..|xs| - 1], ys[..|ys| - 1], d);
    }
  }

  /** Softmax of a non-empty list is a probability distribution. */
  lemma SoftmaxIsDistribution(fitnesses: seq<real>, exp: Exp)
    requires PositiveOn(exp, fitnesses)
    requires |fitnesses| > 0
    ensures IsDistribution(Softmax(fitnesses, exp))
  {
    NormalisedIsDistribution(Exps(fitnesses, exp));
  }

  lemma NormalisedIsDistribution(xs: seq<real>)
    requires |xs| > 0 && forall i :: 0 <= i < |xs| ==> xs[i] > 0.0
    ensures IsDistribution(Normalised(xs))
  {
    var p := Normalised(xs);
    var total := Sum(xs);
    SumPositive(xs);
    forall i | 0 <= i < |p|
      ensures p[i] >= 0.0 && p[i] == xs[i] / total
    {
    }
    SumScaled(xs, p, total);
    assert total / total == 1.0;
  }

  /** np.cumsum: running sums, accumulated left to right. */
  function CumulativeSum(ps: seq<real>): (c: seq<real>)
    ensures |c| == |ps|
    decreases |ps|
  {
    if ps == [] then []
    else
      var init := CumulativeSum(ps[..|ps| - 1]);
      init + [(if init == [] then 0.0 else init[|init| - 1]) + ps[|ps| - 1]]
  }

  /** Entry i of the running sum is the sum of the first i + 1 probabilities. */
  lemma {:induction false} CumulativeSumIsPrefixSum(ps: seq<real>)
    ensures forall i :: 0 <= i < |ps| ==> CumulativeSum(ps)[i] == Sum(ps[..i + 1])
    decreases |ps|
  {
    if ps != [] {
      var init := ps[..|ps| - 1];
      CumulativeSumIsPrefixSum(init);
      forall i | 0 <= i < |ps|
        ensures CumulativeSum(ps)[i] == Sum(ps[..i + 1])
      {
        if i < |ps| - 1 {
          assert ps[..i + 1] == init[..i + 1];
        } else {
          assert ps[..i + 1] == ps;
          if |init| > 0 {
            assert init[..|init|] == init;
          }
        }
      }
    }
  }

  /** cdf = np.cumsum(probs); cdf[-1] = 1.0, which fails on an empty array. */
  function Cdf(ps: seq<real>): (r: Option<seq<real>>)
    ensures r.None? <==> ps == []
    ensures r.Some? ==> |r.value| == |ps| && r.value[|ps| - 1] == 1.0
    ensures r.Some? ==> forall i :: 0 <= i < |ps| - 1 ==> r.value[i] == CumulativeSum(ps)[i]
  {
    if ps == [] then None else Some(CumulativeSum(ps)[|ps| - 1 := 1.0])
  }

  lemma {:induction false} SumPrefixMonotone(ps: seq<real>, i: nat, j: nat)
    requires i <= j <= |ps| && forall k :: 0 <= k < |ps| ==> ps[k] >= 0.0
    ensures Sum(ps[..i]) <= Sum(ps[..j])
    decreases j - i
  {
    if i < j {
      SumPrefixMonotone(ps, i, j - 1);
      assert ps[..j][..j - 1] == ps[..j - 1];
    }
  }

  predicate Sorted(a: seq<real>) {
    forall i, j :: 0 <= i < j < |a| ==> a[i] <= a[j]
  }

  /** For a probability distribution, the cdf is the running sum at every entry (the
      forced last 1.0 is the true total) and is non-decreasing. */
  lemma CdfOfDistribution(ps: seq<real>)
    requires |ps| > 0 && IsDistribution(ps)
    ensures forall i :: 0 <= i < |ps| ==> Cdf(ps).value[i] == Sum(ps[..i + 1])
    ensures Sorted(Cdf(ps).value)
  {
    var cdf := Cdf(ps).value;
    CumulativeSumIsPrefixSum(ps);
    assert ps[..|ps|] == ps;
    forall i, j | 0 <= i < j < |ps|
      ensures cdf[i] <= cdf[j]
    {
      SumPrefixMonotone(ps, i + 1, j + 1);
    }
  }

  /** np.searchsorted(a, v, side="right") on sorted a: the first index whose value exceeds
      v, or len(a) when there is none. */
  function SearchSortedRight(a: seq<real>, v: real): (i: nat)
    ensures i <= |a|
    ensures forall j :: 0 <= j < i ==> a[j] <= v
    ensures i < |a| ==> a[i] > v
    decreases |a|
  {
    if a == [] then 0
    else if a[0] > v then 0
    else 1 + SearchSortedRight(a[1..], v)
  }

  /** How many entries are at most v. */
  function CountAtMost(a: seq<real>, v: real): nat
    decreases |a|
  {
    if a == [] then 0 else (if a[0] <= v then 1 else 0) + CountAtMost(a[1..], v)
  }

  /** numpy's definition of the right insertion point for sorted input: the number of
      entries that are at most v. */
  lemma {:induction false} SearchSortedRightCounts(a: seq<real>, v: real)
    requires Sorted(a)
    ensures SearchSortedRight(a, v) == CountAtMost(a, v)
    decreases |a|
  {
    if a != [] {
      assert Sorted(a[1..]);
      SearchSortedRightCounts(a[1..], v);
      if a[0] > v {
        NoneAtMost(a[1..], v);
      }
    }
  }

  lemma {:induction false} NoneAtMost(a: seq<real>, v: real)
    requires forall j :: 0 <= j < |a| ==> a[j] > v
    ensures CountAtMost(a, v) == 0
    decreases |a|
  {
    if a != [] {
      NoneAtMost(a[1..], v);
    }
  }

  /** SoftmaxSelection.select with r = np.random.rand(). */
  function SoftmaxSelect(population: nat, fitnesses: seq<real>, exp: Exp, r: real): (s: Result<nat, SelectionError>)
    requires PositiveOn(exp, fitnesses)
    requires 0.0 <= r < 1.0
    ensures s.Failure? && s.error == EmptyDistribution <==> fitnesses == []
    ensures s.Failure? ==> s.error == EmptyDistribution || s.error == IndexPastPopulation
    ensures s.Success? ==> s.value < |fitnesses| && s.value < population
    ensures fitnesses != [] && |fitnesses| <= population ==> s.Success?
  {
    match Cdf(Softmax(fitnesses, exp))
    case None => Failure(EmptyDistribution)
    case Some(cdf) =>
      var idx := SearchSortedRight(cdf, r);
      if idx < population then Success(idx) else Failure(IndexPastPopulation)
  }

  /** Roulette wheel: softmax selection returns index i exactly when r falls in
      [p[0] + ... + p[i - 1], p[0] + ... + p[i]), an interval as wide as p[i]. */
  lemma SoftmaxSelectRoulette(population: nat, fitnesses: seq<real>, exp: Exp, r: real)
    requires PositiveOn(exp, fitnesses)
    requires 0.0 <= r < 1.0 && 0 < |fitnesses| <= population
    ensures var s, p := SoftmaxSelect(population, fitnesses, exp, r), Softmax(fitnesses, exp);
      s.Success? && Sum(p[..s.value]) <= r < Sum(p[..s.value + 1])
  {
    var p := Softmax(fitnesses, exp);
    SoftmaxIsDistribution(fitnesses, exp);
    CdfOfDistribution(p);
    var cdf := Cdf(p).value;
    var i := SearchSortedRight(cdf, r);
    assert i < |cdf|;
    if i > 0 {
      assert cdf[i - 1] <= r;
    } else {
      assert p[..0] == [];
    }
  }

  // Choosing the strategy.

  datatype Strategy = TournamentStrategy | SoftmaxStrategy

  /** SELECTIONS[name]: "tournament" or "softmax", any other name a KeyError. */
  function StrategyNamed(name: string): (r: Option<Strategy>)
    ensures r == Some(TournamentStrategy) <==> name == "tournament"
    ensures r == Some(SoftmaxStrategy) <==> name == "softmax"
  {
    if name == "tournament" then Some(TournamentStrategy)
    else if name == "softmax" then Some(SoftmaxStrategy)
    else None
  }

  /** The draws one selection consumes: the tournament sample or the softmax r. */
  datatype SelectionDraw = SelectionDraw(sample: seq<nat>, r: real)

  predicate ValidDraw(population: nat, fitnesses: seq<real>, d: SelectionDraw) {
    && 0.0 <= d.r < 1.0
    && (TournamentSize <= Min(population, |fitnesses|) ==>
          IsSample(d.sample, Min(population, |fitnesses|), TournamentSize))
  }

  function Select(strategy: Strategy, population: nat, fitnesses: seq<real>, exp: Exp, d: SelectionDraw): Result<nat, SelectionError>
    requires PositiveOn(exp, fitnesses)
    requires ValidDraw(population, fitnesses, d)
  {
    match strategy
    case TournamentStrategy => TournamentSelect(population, fitnesses, d.sample)
    case SoftmaxStrategy => SoftmaxSelect(population, fitnesses, exp, d.r)
  }

  /** select_parents: two independent selections by the configured strategy. */
  function SelectParents(name: string, population: nat, fitnesses: seq<real>, exp: Exp, d1: SelectionDraw, d2: SelectionDraw)
    : (r: Result<(nat, nat), SelectionError>)
    requires PositiveOn(exp, fitnesses)
    requires ValidDraw(population, fitnesses, d1) && ValidDraw(population, fitnesses, d2)
    ensures StrategyNamed(name).None? ==> r == Failure(UnknownStrategy)
    ensures r.Success? ==> r.value.0 < population && r.value.1 < population
    ensures r.Success? ==>
      && StrategyNamed(name).Some?
      && Select(StrategyNamed(name).value, population, fitnesses, exp, d1) == Success(r.value.0)
      && Select(StrategyNamed(name).value, population, fitnesses, exp, d2) == Success(r.value.1)
    ensures StrategyNamed(name).Some? ==>
      var first := Select(StrategyNamed(name).value, population, fitnesses, exp, d1);
      var second := Select(StrategyNamed(name).value, population, fitnesses, exp, d2);
      && (first.Failure? ==> r == Failure(first.error))
      && (first.Success? && second.Failure? ==> r == Failure(second.error))
      && (first.Success? && second.Success? ==> r == Success((first.value, second.value)))
  {
    match StrategyNamed(name)
    case None => Failure(UnknownStrategy)
    case Some(strategy) =>
      var first := Select(strategy, population, fitnesses, exp, d1);
      if first.Failure? then Failure(first.error)
      else
        var second := Select(strategy, population, fitnesses, exp, d2);
        if second.Failure? then Failure(second.error)
        else Success((first.value, second.value))
  }

  /** With a known strategy, a population of at least TOURNAMENT_SIZE individuals and one
      fitness per individual, select_parents always succeeds. */
  lemma SelectParentsSucceeds(name: string, fitnesses: seq<real>, exp: Exp, d1: SelectionDraw, d2: SelectionDraw)
    requires PositiveOn(exp, fitnesses)
    requires StrategyNamed(name).Some? && |fitnesses| >= TournamentSize
    requires ValidDraw(|fitnesses|, fitnesses, d1) && ValidDraw(|fitnesses|, fitnesses, d2)
    ensures SelectParents(name, |fitnesses|, fitnesses, exp, d1, d2).Success?
  {
  }
}
