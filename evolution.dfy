/** One generation of the loop in main.py's evolve: the best individual (first index of
    maximal fitness) is cloned into the next population, which is then filled to exactly
    POPULATION_SIZE with pairs of children: two parents are selected, crossed over, and
    each child is mutated when its own coin falls below MUTATION_RATE; the second child of
    the last pair is dropped when there is no room left. The functions below say what the
    next population's gene values are; NextGeneration builds it from chromosome objects. */
module Evolution {
  import opened Config
  import opened Wrappers
  import opened Canvas
  import opened Genes
  import opened Chromosomes
  import opened Selection
  import opened Fitness

  /** What a generation step can fail with: np.argmax of no fitnesses, or a failed
      parent selection. */
  datatype StepError = EmptyPopulation | SelectionFailed(error: SelectionError)

  /** The draws of one Chromosome.mutate. */
  datatype MutationDraw = MutationDraw(index: nat, coin: real, noise: Noise, replacement: GeneDraw)

  /** The draws of one round of the fill loop: two parent selections, the crossover split,
      and for each child its mutation coin and the draws of its mutation. */
  datatype RoundDraw = RoundDraw(
    select1: SelectionDraw, select2: SelectionDraw, split: int,
    coin1: real, mutation1: MutationDraw, coin2: real, mutation2: MutationDraw)

  predicate ValidMutationDraw(m: MutationDraw) {
    m.index < NumGenes && 0.0 <= m.coin < 1.0
  }

  /** Every draw within the range its random call produces. */
  predicate ValidRoundDraw(population: nat, fitnesses: seq<real>, d: RoundDraw) {
    && ValidDraw(population, fitnesses, d.select1) && ValidDraw(population, fitnesses, d.select2)
    && 1 <= d.split <= NumGenes - 2
    && 0.0 <= d.coin1 < 1.0 && 0.0 <= d.coin2 < 1.0
    && ValidMutationDraw(d.mutation1) && ValidMutationDraw(d.mutation2)
  }

  /** Every chromosome value has NUM_GENES genes. */
  predicate FullLength(values: seq<seq<Gene>>) {
    forall i :: 0 <= i < |values| ==> |values[i]| == NumGenes
  }

  /** A child's genes after `if random.random() < MUTATION_RATE: child.mutate()`. */
  function MaybeMutated(genes: seq<Gene>, coin: real, m: MutationDraw, sqrt: Sqrt): (r: seq<Gene>)
    requires |genes| == NumGenes && ValidMutationDraw(m)
    ensures |r| == NumGenes
    ensures coin >= MutationRate ==> r == genes
    ensures coin < MutationRate ==> r == MutatedAt(genes, m.index, m.coin, m.noise, m.replacement, sqrt)
    ensures forall j :: 0 <= j < NumGenes && j != m.index ==> r[j] == genes[j]
  {
    if coin < MutationRate then MutatedAt(genes, m.index, m.coin, m.noise, m.replacement, sqrt) else genes
  }

  /** np.sqrt returns the exact root of every non-negative number. */
  ghost predicate ExactSqrt(sqrt: Sqrt) {
    forall x: real :: x >= 0.0 ==> IsSquareRoot(sqrt(x), x)
  }

  /** Every gene of every chromosome is well formed. */
  predicate AllWellFormed(values: seq<seq<Gene>>, sqrt: Sqrt) {
    forall i, j :: 0 <= i < |values| && 0 <= j < |values[i]| ==> WellFormed(values[i][j], sqrt)
  }

  /** The replacement genes of every round's mutations are drawn in range. */
  ghost predicate ReplacementsInRange(draws: seq<RoundDraw>) {
    forall t :: 0 <= t < |draws| ==> InDrawRange(draws[t].mutation1.replacement) && InDrawRange(draws[t].mutation2.replacement)
  }

  /** A child's coin-guarded mutation keeps every one of its genes well formed. */
  lemma MaybeMutatedWellFormed(genes: seq<Gene>, coin: real, m: MutationDraw, sqrt: Sqrt)
    requires |genes| == NumGenes && ValidMutationDraw(m) && InDrawRange(m.replacement) && ExactSqrt(sqrt)
    requires forall j :: 0 <= j < NumGenes ==> WellFormed(genes[j], sqrt)
    ensures forall j :: 0 <= j < NumGenes ==> WellFormed(MaybeMutated(genes, coin, m, sqrt)[j], sqrt)
  {
    if coin < MutationRate {
      var g := MutatedAt(genes, m.index, m.coin, m.noise, m.replacement, sqrt)[m.index];
      if g.Ellipse? {
        assert IsSquareRoot(sqrt(FociDistanceSquared(g) as real), FociDistanceSquared(g) as real);
      }
      MutatedAtWellFormed(genes, m.index, m.coin, m.noise, m.replacement, sqrt);
    }
  }

  /** A child of well-formed parents is well formed: crossover only moves genes, and
      mutation keeps them well formed. */
  lemma ChildWellFormed(p1: seq<Gene>, p2: seq<Gene>, split: int, coin: real, m: MutationDraw, sqrt: Sqrt)
    requires |p1| == NumGenes && |p2| == NumGenes && 1 <= split <= NumGenes - 2
    requires forall j :: 0 <= j < NumGenes ==> WellFormed(p1[j], sqrt) && WellFormed(p2[j], sqrt)
    requires ValidMutationDraw(m) && InDrawRange(m.replacement) && ExactSqrt(sqrt)
    ensures forall j :: 0 <= j < NumGenes ==> WellFormed(MaybeMutated(Crossed(p1, p2, split), coin, m, sqrt)[j], sqrt)
  {
    CrossedAt(p1, p2, split);
    MaybeMutatedWellFormed(Crossed(p1, p2, split), coin, m, sqrt);
  }

  /** Both children of a round of well-formed parents are well formed. */
  lemma OffspringWellFormed(values: seq<seq<Gene>>, fitnesses: seq<real>, name: string, exp: Exp, d: RoundDraw, sqrt: Sqrt)
    requires FullLength(values) && PositiveOn(exp, fitnesses) && ValidRoundDraw(|values|, fitnesses, d)
    requires AllWellFormed(values, sqrt) && ExactSqrt(sqrt) && ReplacementsInRange([d])
    ensures var r := Offspring(values, fitnesses, name, exp, d, sqrt);
      r.Success? ==> AllWellFormed(r.value, sqrt)
  {
    var parents := SelectParents(name, |values|, fitnesses, exp, d.select1, d.select2);
    if parents.Success? {
      var (p1, p2) := parents.value;
      assert [d][0] == d;
      ChildWellFormed(values[p1], values[p2], d.split, d.coin1, d.mutation1, sqrt);
      ChildWellFormed(values[p2], values[p1], d.split, d.coin2, d.mutation2, sqrt);
    }
  }

  /** All the children of the fill loop are well formed. */
  lemma {:induction false} AllOffspringWellFormed(values: seq<seq<Gene>>, fitnesses: seq<real>, name: string, exp: Exp, draws: seq<RoundDraw>, sqrt: Sqrt)
    requires FullLength(values) && PositiveOn(exp, fitnesses) && forall t :: 0 <= t < |draws| ==> ValidRoundDraw(|values|, fitnesses, draws[t])
    requires AllWellFormed(values, sqrt) && ExactSqrt(sqrt) && ReplacementsInRange(draws)
    ensures var r := AllOffspring(values, fitnesses, name, exp, draws, sqrt);
      r.Success? ==> AllWellFormed(r.value, sqrt)
    decreases |draws|
  {
    if draws != [] {
      var n := |draws| - 1;
      AllOffspringWellFormed(values, fitnesses, name, exp, draws[..n], sqrt);
      assert ReplacementsInRange([draws[n]]);
      OffspringWellFormed(values, fitnesses, name, exp, draws[n], sqrt);
    }
  }

  /** One round of the fill loop on values: the two children, in order. */
  function Offspring(values: seq<seq<Gene>>, fitnesses: seq<real>, name: string, exp: Exp, d: RoundDraw, sqrt: Sqrt)
    : (r: Result<seq<seq<Gene>>, SelectionError>)
    requires FullLength(values) && PositiveOn(exp, fitnesses) && ValidRoundDraw(|values|, fitnesses, d)
    ensures r.Success? ==> |r.value| == 2 && FullLength(r.value)
    ensures r.Failure? <==> SelectParents(name, |values|, fitnesses, exp, d.select1, d.select2).Failure?
  {
    match SelectParents(name, |values|, fitnesses, exp, d.select1, d.select2)
    case Failure(e) => Failure(e)
    case Success((p1, p2)) =>
      var child1 := Crossed(values[p1], values[p2], d.split);
      var child2 := Crossed(values[p2], values[p1], d.split);
      Success([MaybeMutated(child1, d.coin1, d.mutation1, sqrt), MaybeMutated(child2, d.coin2, d.mutation2, sqrt)])
  }

  /** All children of the rounds `draws`, in the order they are appended. */
  function AllOffspring(values: seq<seq<Gene>>, fitnesses: seq<real>, name: string, exp: Exp, draws: seq<RoundDraw>, sqrt: Sqrt)
    : (r: Result<seq<seq<Gene>>, SelectionError>)
    requires FullLength(values) && PositiveOn(exp, fitnesses) && forall t :: 0 <= t < |draws| ==> ValidRoundDraw(|values|, fitnesses, draws[t])
    ensures r.Success? ==> |r.value| == 2 * |draws| && FullLength(r.value)
    decreases |draws|
  {
    if draws == [] then Success([])
    else
      match AllOffspring(values, fitnesses, name, exp, draws[..|draws| - 1], sqrt)
      case Failure(e) => Failure(e)
      case Success(earlier) =>
        match Offspring(values, fitnesses, name, exp, draws[|draws| - 1], sqrt)
        case Failure(e) => Failure(e)
        case Success(pair) => Success(earlier + pair)
  }

  /** 1 when ELITISM carries the best individual over, else 0. */
  function EliteCount(population: nat): nat {
    if Elitism && population > 0 then 1 else 0
  }

  /** How many rounds the fill loop runs: each appends two children until
      POPULATION_SIZE is reached. */
  function Rounds(population: nat): nat {
    (PopulationSize - EliteCount(population) + 1) / 2
  }

  /** The gene values of the next population. */
  function NextPopulation(values: seq<seq<Gene>>, fitnesses: seq<real>, name: string, exp: Exp, draws: seq<RoundDraw>, sqrt: Sqrt)
    : (r: Result<seq<seq<Gene>>, StepError>)
    requires FullLength(values) && PositiveOn(exp, fitnesses) && |fitnesses| == |values|
    requires |draws| == Rounds(|values|) && forall t :: 0 <= t < |draws| ==> ValidRoundDraw(|values|, fitnesses, draws[t])
  {
    if values == [] then Failure(EmptyPopulation)
    else
      var elite := if Elitism then [values[ArgMax(fitnesses)]] else [];
      match AllOffspring(values, fitnesses, name, exp, draws, sqrt)
      case Failure(e) => Failure(SelectionFailed(e))
      case Success(children) => Success((elite + children)[..PopulationSize])
  }

  /** The shape of the next generation: exactly POPULATION_SIZE chromosomes of NUM_GENES
      genes; the first is the best individual of the current one; the others are the
      children in the order the fill loop appends them. */
  lemma NextPopulationShape(values: seq<seq<Gene>>, fitnesses: seq<real>, name: string, exp: Exp, draws: seq<RoundDraw>, sqrt: Sqrt)
    requires FullLength(values) && PositiveOn(exp, fitnesses) && |fitnesses| == |values|
    requires |draws| == Rounds(|values|) && forall t :: 0 <= t < |draws| ==> ValidRoundDraw(|values|, fitnesses, draws[t])
    ensures var r := NextPopulation(values, fitnesses, name, exp, draws, sqrt);
      r.Success? ==>
        && |r.value| == PopulationSize && FullLength(r.value)
        && r.value[0] == values[ArgMax(fitnesses)]
        && (forall j :: 0 < j < PopulationSize ==>
              r.value[j] == AllOffspring(values, fitnesses, name, exp, draws, sqrt).value[j - 1])
  {
    var r := NextPopulation(values, fitnesses, name, exp, draws, sqrt);
    if r.Success? {
      var elite := [values[ArgMax(fitnesses)]];
      var children := AllOffspring(values, fitnesses, name, exp, draws, sqrt).value;
      assert r.value == (elite + children)[..PopulationSize];
      assert |elite + children| >= PopulationSize;
    }
  }

  /** A generation of well-formed chromosomes is followed by one: the elite is a clone and
      every child is well formed. */
  lemma NextPopulationWellFormed(values: seq<seq<Gene>>, fitnesses: seq<real>, name: string, exp: Exp, draws: seq<RoundDraw>, sqrt: Sqrt)
    requires FullLength(values) && PositiveOn(exp, fitnesses) && |fitnesses| == |values|
    requires |draws| == Rounds(|values|) && forall t :: 0 <= t < |draws| ==> ValidRoundDraw(|values|, fitnesses, draws[t])
    requires AllWellFormed(values, sqrt) && ExactSqrt(sqrt) && ReplacementsInRange(draws)
    ensures var r := NextPopulation(values, fitnesses, name, exp, draws, sqrt);
      r.Success? ==> AllWellFormed(r.value, sqrt)
  {
    AllOffspringWellFormed(values, fitnesses, name, exp, draws, sqrt);
    var r := NextPopulation(values, fitnesses, name, exp, draws, sqrt);
    if r.Success? {
      var all := [values[ArgMax(fitnesses)]] + AllOffspring(values, fitnesses, name, exp, draws, sqrt).value;
      assert AllWellFormed(all, sqrt);
      assert r.value == all[..PopulationSize];
    }
  }

  /** A parent selection fails for every round or for none: the outcome depends only on
      the strategy name and the population's size. */
  lemma {:induction false} OffspringFailsUniformly(values: seq<seq<Gene>>, fitnesses: seq<real>, name: string, exp: Exp, draws: seq<RoundDraw>, sqrt: Sqrt)
    requires FullLength(values) && PositiveOn(exp, fitnesses) && |fitnesses| == |values| > 0 && |draws| > 0
    requires forall t :: 0 <= t < |draws| ==> ValidRoundDraw(|values|, fitnesses, draws[t])
    ensures AllOffspring(values, fitnesses, name, exp, draws, sqrt).Failure? <==>
      StrategyNamed(name).None? || (StrategyNamed(name) == Some(TournamentStrategy) && |values| < TournamentSize)
    decreases |draws|
  {
    var d := draws[|draws| - 1];
    var fails := StrategyNamed(name).None? || (StrategyNamed(name) == Some(TournamentStrategy) && |values| < TournamentSize);
    assert SelectParents(name, |values|, fitnesses, exp, d.select1, d.select2).Failure? <==> fails;
    if |draws| > 1 {
      OffspringFailsUniformly(values, fitnesses, name, exp, draws[..|draws| - 1], sqrt);
    }
  }

  // The population as chromosome objects.

  /** The gene values of each chromosome, in order. */
  ghost function ContentsOf(population: seq<Chromosome>): (values: seq<seq<Gene>>)
    reads population
    ensures |values| == |population|
    decreases |population|
  {
    if population == [] then []
    else ContentsOf(population[..|population| - 1]) + [population[|population| - 1].Contents]
  }

  lemma {:induction false} ContentsOfElements(population: seq<Chromosome>)
    ensures forall i :: 0 <= i < |population| ==> ContentsOf(population)[i] == population[i].Contents
    decreases |population|
  {
    if population != [] {
      var n := |population| - 1;
      ContentsOfElements(population[..n]);
      assert forall i :: 0 <= i < n ==> population[i] == population[..n][i];
    }
  }

  /** All objects the chromosomes own. */
  ghost function ReprsOf(population: seq<Chromosome>): set<object>
    reads population
    decreases |population|
  {
    if population == [] then {}
    else ReprsOf(population[..|population| - 1]) + population[|population| - 1].Repr
  }

  /** The owned objects exist, so a call that changes no existing object keeps them. */
  lemma {:induction false} ReprsOfAllocated(population: seq<Chromosome>)
    ensures forall o :: o in ReprsOf(population) ==> allocated(o)
    decreases |population|
  {
    if population != [] {
      ReprsOfAllocated(population[..|population| - 1]);
    }
  }

  /** Every chromosome is valid, has NUM_GENES genes and owns its objects alone. */
  ghost predicate WellOwned(population: seq<Chromosome>)
    reads population, ReprsOf(population)
    decreases |population|
  {
    population != [] ==>
      var last := population[|population| - 1];
      && WellOwned(population[..|population| - 1])
      && last.Valid() && |last.Contents| == NumGenes
      && ReprsOf(population[..|population| - 1]) !! last.Repr
  }

  /** Each chromosome of a well-owned population is valid and has NUM_GENES genes. */
  lemma {:induction false} WellOwnedElements(population: seq<Chromosome>)
    requires WellOwned(population)
    ensures forall i :: 0 <= i < |population| ==> population[i].Valid() && population[i].Repr <= ReprsOf(population)
    ensures FullLength(ContentsOf(population))
    decreases |population|
  {
    ContentsOfElements(population);
    if population != [] {
      var n := |population| - 1;
      WellOwnedElements(population[..n]);
      assert forall i :: 0 <= i < n ==> population[i] == population[..n][i];
    }
  }

  /** Appending a chromosome that owns its objects alone keeps a population well owned. */
  lemma {:induction false} WellOwnedAppend(population: seq<Chromosome>, c: Chromosome)
    requires WellOwned(population) && c.Valid() && |c.Contents| == NumGenes
    requires ReprsOf(population) !! c.Repr
    ensures WellOwned(population + [c])
    ensures ReprsOf(population + [c]) == ReprsOf(population) + c.Repr
    ensures ContentsOf(population + [c]) == ContentsOf(population) + [c.Contents]
  {
    assert (population + [c])[..|population|] == population;
  }

  /** The rounds up to t + 1 give the children of the rounds up to t, then round t's. */
  lemma {:induction false} AllOffspringStep(values: seq<seq<Gene>>, fitnesses: seq<real>, name: string, exp: Exp, draws: seq<RoundDraw>, t: nat,
                         sqrt: Sqrt, children: seq<seq<Gene>>, pair: seq<seq<Gene>>)
    requires FullLength(values) && PositiveOn(exp, fitnesses) && forall u :: 0 <= u < |draws| ==> ValidRoundDraw(|values|, fitnesses, draws[u])
    requires t < |draws|
    requires AllOffspring(values, fitnesses, name, exp, draws[..t], sqrt) == Success(children)
    requires Offspring(values, fitnesses, name, exp, draws[t], sqrt) == Success(pair)
    ensures AllOffspring(values, fitnesses, name, exp, draws[..t + 1], sqrt) == Success(children + pair)
  {
    var prefix := draws[..t + 1];
    assert prefix[..|prefix| - 1] == draws[..t];
    assert AllOffspring(values, fitnesses, name, exp, prefix[..|prefix| - 1], sqrt) == Success(children);
    assert Offspring(values, fitnesses, name, exp, prefix[|prefix| - 1], sqrt) == Success(pair);
  }

  /** A failed round t fails the rounds up to t + 1 with its error. */
  lemma {:induction false} AllOffspringStepFails(values: seq<seq<Gene>>, fitnesses: seq<real>, name: string, exp: Exp, draws: seq<RoundDraw>, t: nat,
                              sqrt: Sqrt)
    requires FullLength(values) && PositiveOn(exp, fitnesses) && forall u :: 0 <= u < |draws| ==> ValidRoundDraw(|values|, fitnesses, draws[u])
    requires t < |draws|
    requires AllOffspring(values, fitnesses, name, exp, draws[..t], sqrt).Success?
    requires Offspring(values, fitnesses, name, exp, draws[t], sqrt).Failure?
    ensures AllOffspring(values, fitnesses, name, exp, draws[..t + 1], sqrt)
      == Failure(Offspring(values, fitnesses, name, exp, draws[t], sqrt).error)
  {
    var prefix := draws[..t + 1];
    assert prefix[..|prefix| - 1] == draws[..t];
    assert AllOffspring(values, fitnesses, name, exp, prefix[..|prefix| - 1], sqrt).Success?;
    assert Offspring(values, fitnesses, name, exp, prefix[|prefix| - 1], sqrt).Failure?;
  }

  /** Once a round fails, the later rounds keep its error. */
  lemma {:induction false} AllOffspringFailureSticks(values: seq<seq<Gene>>, fitnesses: seq<real>, name: string, exp: Exp, draws: seq<RoundDraw>, t: nat, sqrt: Sqrt)
    requires FullLength(values) && PositiveOn(exp, fitnesses) && forall u :: 0 <= u < |draws| ==> ValidRoundDraw(|values|, fitnesses, draws[u])
    requires t <= |draws|
    requires AllOffspring(values, fitnesses, name, exp, draws[..t], sqrt).Failure?
    ensures AllOffspring(values, fitnesses, name, exp, draws, sqrt) == AllOffspring(values, fitnesses, name, exp, draws[..t], sqrt)
    decreases |draws| - t
  {
    if t < |draws| {
      assert draws[..t + 1][..t] == draws[..t];
      AllOffspringFailureSticks(values, fitnesses, name, exp, draws, t + 1, sqrt);
    } else {
      assert draws[..t] == draws;
    }
  }

  /** The first failed round decides the outcome of all the rounds. */
  lemma {:induction false} AllOffspringFailsAt(values: seq<seq<Gene>>, fitnesses: seq<real>, name: string, exp: Exp, draws: seq<RoundDraw>, t: nat,
                            sqrt: Sqrt)
    requires FullLength(values) && PositiveOn(exp, fitnesses) && forall u :: 0 <= u < |draws| ==> ValidRoundDraw(|values|, fitnesses, draws[u])
    requires t < |draws|
    requires AllOffspring(values, fitnesses, name, exp, draws[..t], sqrt).Success?
    requires Offspring(values, fitnesses, name, exp, draws[t], sqrt).Failure?
    ensures AllOffspring(values, fitnesses, name, exp, draws, sqrt)
      == Failure(Offspring(values, fitnesses, name, exp, draws[t], sqrt).error)
  {
    AllOffspringStepFails(values, fitnesses, name, exp, draws, t, sqrt);
    AllOffspringFailureSticks(values, fitnesses, name, exp, draws, t + 1, sqrt);
  }

  lemma Associative<T>(a: seq<T>, b: seq<T>, c: seq<T>)
    ensures a + (b + c) == a + b + c
  {
  }

  /** `if random.random() < MUTATION_RATE: child.mutate()` on one child. */
  method MaybeMutate(c: Chromosome, coin: real, m: MutationDraw, sqrt: Sqrt)
    requires c.Valid() && |c.Contents| == NumGenes && ValidMutationDraw(m)
    modifies c.Repr
    ensures c.Valid() && fresh(c.Repr - old(c.Repr))
    ensures c.Contents == MaybeMutated(old(c.Contents), coin, m, sqrt)
  {
    if coin < MutationRate {
      var _ := c.Mutate(m.index, m.coin, m.noise, m.replacement, sqrt);
    }
  }

  /** Crossover of the parents at positions p1 and p2, then the coin-guarded mutation of
      each child. */
  method Breed(population: seq<Chromosome>, ghost values: seq<seq<Gene>>, p1: nat, p2: nat, d: RoundDraw, sqrt: Sqrt,
               ghost others: set<object>)
    returns (child1: Chromosome, child2: Chromosome)
    requires WellOwned(population) && values == ContentsOf(population) && FullLength(values)
    requires p1 < |population| && p2 < |population|
    requires 1 <= d.split <= NumGenes - 2 && ValidMutationDraw(d.mutation1) && ValidMutationDraw(d.mutation2)
    ensures child1.Valid() && child2.Valid()
    ensures fresh(child1.Repr) && fresh(child2.Repr) && child1.Repr !! child2.Repr
    ensures child1.Repr !! others && child2.Repr !! others
    ensures child1.Contents == MaybeMutated(Crossed(values[p1], values[p2], d.split), d.coin1, d.mutation1, sqrt)
    ensures child2.Contents == MaybeMutated(Crossed(values[p2], values[p1], d.split), d.coin2, d.mutation2, sqrt)
  {
    WellOwnedElements(population);
    ContentsOfElements(population);
    child1, child2 := population[p1].Crossover(population[p2], d.split);
    MaybeMutate(child1, d.coin1, d.mutation1, sqrt);
    MaybeMutate(child2, d.coin2, d.mutation2, sqrt);
  }

  /** One round of the fill loop: select two parents, cross them over, mutate each child
      whose coin falls below MUTATION_RATE. The children are new objects; nothing that
      existed before changes. */
  method BreedRound(population: seq<Chromosome>, ghost values: seq<seq<Gene>>, fitnesses: seq<real>, name: string,
                    exp: Exp, d: RoundDraw, sqrt: Sqrt, next: seq<Chromosome>, ghost current: seq<seq<Gene>>)
    returns (r: Result<(Chromosome, Chromosome), SelectionError>)
    requires WellOwned(population) && values == ContentsOf(population) && FullLength(values) && PositiveOn(exp, fitnesses)
    requires |fitnesses| == |population| && ValidRoundDraw(|population|, fitnesses, d)
    requires WellOwned(next) && current == ContentsOf(next)
    ensures WellOwned(population) && values == ContentsOf(population)
    ensures WellOwned(next) && current == ContentsOf(next)
    ensures var expected := Offspring(values, fitnesses, name, exp, d, sqrt);
      && (r.Failure? <==> expected.Failure?)
      && (r.Failure? ==> r.error == expected.error)
      && (r.Success? ==>
            && r.value.0.Valid() && r.value.1.Valid()
            && fresh(r.value.0.Repr) && fresh(r.value.1.Repr) && r.value.0.Repr !! r.value.1.Repr
            && r.value.0.Repr !! ReprsOf(next) && r.value.1.Repr !! ReprsOf(next)
            && [r.value.0.Contents, r.value.1.Contents] == expected.value)
  {
    ReprsOfAllocated(population);
    ReprsOfAllocated(next);
    var parents := SelectParents(name, |population|, fitnesses, exp, d.select1, d.select2);
    if parents.Failure? {
      return Failure(parents.error);
    }
    var (p1, p2) := parents.value;
    var child1, child2 := Breed(population, values, p1, p2, d, sqrt, ReprsOf(next));
    r := Success((child1, child2));
  }

  /** `next_population.append(child1)`, then `child2` only while the population is
      still short of POPULATION_SIZE, keeps the population well owned. */
  lemma {:induction false} AppendChildren(next: seq<Chromosome>, child1: Chromosome, child2: Chromosome, grown: seq<Chromosome>)
    requires |next| < PopulationSize && WellOwned(next)
    requires child1.Valid() && |child1.Contents| == NumGenes && child2.Valid() && |child2.Contents| == NumGenes
    requires ReprsOf(next) !! child1.Repr && ReprsOf(next) !! child2.Repr && child1.Repr !! child2.Repr
    requires grown == if |next| + 1 < PopulationSize then next + [child1, child2] else next + [child1]
    ensures WellOwned(grown)
    ensures ContentsOf(grown) == (ContentsOf(next) + [child1.Contents, child2.Contents])[..|grown|]
  {
    var born := [child1.Contents, child2.Contents];
    WellOwnedAppend(next, child1);
    if |next| + 1 < PopulationSize {
      var first := next + [child1];
      assert ReprsOf(first) !! child2.Repr;
      WellOwnedAppend(first, child2);
      assert first + [child2] == grown;
      assert ContentsOf(next) + [child1.Contents] + [child2.Contents] == ContentsOf(next) + born;
    } else {
      assert (ContentsOf(next) + born)[..|grown|] == ContentsOf(next) + [child1.Contents];
    }
  }

  /** The gene values of the fill loop after t rounds: `current` holds the elite and the
      children of those rounds, cut at POPULATION_SIZE. */
  ghost predicate Filling(values: seq<seq<Gene>>, fitnesses: seq<real>, name: string, exp: Exp,
                          draws: seq<RoundDraw>, sqrt: Sqrt, elite: seq<seq<Gene>>,
                          t: nat, current: seq<seq<Gene>>, children: seq<seq<Gene>>)
  {
    && FullLength(values) && PositiveOn(exp, fitnesses)
    && (forall u :: 0 <= u < |draws| ==> ValidRoundDraw(|values|, fitnesses, draws[u]))
    && PopulationSize - |elite| <= 2 * |draws| <= PopulationSize - |elite| + 1
    && t <= |draws| && |children| == 2 * t
    && |current| == (if |elite| + 2 * t < PopulationSize then |elite| + 2 * t else PopulationSize)
    && (|current| < PopulationSize ==> t < |draws|)
    && (|current| == PopulationSize ==> t == |draws|)
    && AllOffspring(values, fitnesses, name, exp, draws[..t], sqrt) == Success(children)
    && current == (elite + children)[..|current|]
  }

  /** A successful round t extends the values of the fill loop by its two children, the
      second only while there is room. */
  lemma {:induction false} FillingStep(values: seq<seq<Gene>>, fitnesses: seq<real>, name: string, exp: Exp,
                    draws: seq<RoundDraw>, sqrt: Sqrt, elite: seq<seq<Gene>>,
                    t: nat, current: seq<seq<Gene>>, children: seq<seq<Gene>>, pair: seq<seq<Gene>>)
    requires Filling(values, fitnesses, name, exp, draws, sqrt, elite, t, current, children)
    requires |current| < PopulationSize
    requires Offspring(values, fitnesses, name, exp, draws[t], sqrt) == Success(pair)
    ensures var grown := if |current| + 1 < PopulationSize then |current| + 2 else |current| + 1;
      Filling(values, fitnesses, name, exp, draws, sqrt, elite, t + 1, (current + pair)[..grown], children + pair)
  {
    var grown := if |current| + 1 < PopulationSize then |current| + 2 else |current| + 1;
    assert current == elite + children;
    AllOffspringStep(values, fitnesses, name, exp, draws, t, sqrt, children, pair);
    Associative(elite, children, pair);
    assert (current + pair)[..grown] == (elite + (children + pair))[..grown];
  }

  /** One pass of the fill loop's body: a round of breeding appended to `next`. */
  method FillRound(population: seq<Chromosome>, ghost values: seq<seq<Gene>>, fitnesses: seq<real>, name: string, exp: Exp,
                   draws: seq<RoundDraw>, sqrt: Sqrt, ghost elite: seq<seq<Gene>>,
                   t: nat, next: seq<Chromosome>, ghost children: seq<seq<Gene>>)
    returns (r: Result<seq<Chromosome>, SelectionError>, ghost born: seq<seq<Gene>>)
    requires WellOwned(population) && values == ContentsOf(population) && |fitnesses| == |population|
    requires WellOwned(next) && |next| < PopulationSize
    requires Filling(values, fitnesses, name, exp, draws, sqrt, elite, t, ContentsOf(next), children)
    ensures WellOwned(population) && values == ContentsOf(population)
    ensures r.Failure? ==> AllOffspring(values, fitnesses, name, exp, draws, sqrt) == Failure(r.error)
    ensures r.Success? ==> |next| < |r.value| <= PopulationSize && WellOwned(r.value)
    ensures r.Success? ==> Filling(values, fitnesses, name, exp, draws, sqrt, elite, t + 1, ContentsOf(r.value), children + born)
  {
    ghost var current := ContentsOf(next);
    var pair := BreedRound(population, values, fitnesses, name, exp, draws[t], sqrt, next, current);
    if pair.Failure? {
      AllOffspringFailsAt(values, fitnesses, name, exp, draws, t, sqrt);
      return Failure(pair.error), [];
    }
    var (child1, child2) := pair.value;
    born := [child1.Contents, child2.Contents];
    FillingStep(values, fitnesses, name, exp, draws, sqrt, elite, t, current, children, born);
    var grown := if |next| + 1 < PopulationSize then next + [child1, child2] else next + [child1];
    AppendChildren(next, child1, child2, grown);
    r := Success(grown);
  }

  /** Before the first round the values of the fill loop are the elite's. */
  lemma {:induction false} FillingStart(values: seq<seq<Gene>>, fitnesses: seq<real>, name: string, exp: Exp,
                     draws: seq<RoundDraw>, sqrt: Sqrt, elite: seq<seq<Gene>>)
    requires FullLength(values) && PositiveOn(exp, fitnesses)
    requires forall u :: 0 <= u < |draws| ==> ValidRoundDraw(|values|, fitnesses, draws[u])
    requires |elite| < PopulationSize && PopulationSize - |elite| <= 2 * |draws| <= PopulationSize - |elite| + 1
    ensures Filling(values, fitnesses, name, exp, draws, sqrt, elite, 0, elite, [])
  {
    assert draws[..0] == [];
    assert elite + [] == elite;
  }

  /** Once POPULATION_SIZE is reached every round has run, and the values are the elite
      followed by all the children, cut at POPULATION_SIZE. */
  lemma {:induction false} FillingDone(values: seq<seq<Gene>>, fitnesses: seq<real>, name: string, exp: Exp,
                    draws: seq<RoundDraw>, sqrt: Sqrt, elite: seq<seq<Gene>>,
                    t: nat, current: seq<seq<Gene>>, children: seq<seq<Gene>>)
    requires Filling(values, fitnesses, name, exp, draws, sqrt, elite, t, current, children)
    requires |current| >= PopulationSize
    ensures var expected := AllOffspring(values, fitnesses, name, exp, draws, sqrt);
      expected == Success(children) && current == (elite + expected.value)[..PopulationSize]
  {
    assert draws[..t] == draws;
  }

  /** The fill loop: rounds of selection, crossover and coin-guarded mutation appended to
      `start` (the elite) while fewer than POPULATION_SIZE chromosomes are there. */
  method Fill(population: seq<Chromosome>, ghost values: seq<seq<Gene>>, fitnesses: seq<real>, name: string, exp: Exp,
              draws: seq<RoundDraw>, sqrt: Sqrt, start: seq<Chromosome>)
    returns (r: Result<seq<Chromosome>, SelectionError>)
    requires WellOwned(population) && values == ContentsOf(population) && FullLength(values) && PositiveOn(exp, fitnesses)
    requires |fitnesses| == |population| && forall t :: 0 <= t < |draws| ==> ValidRoundDraw(|population|, fitnesses, draws[t])
    requires WellOwned(start) && |start| < PopulationSize
    requires PopulationSize - |start| <= 2 * |draws| <= PopulationSize - |start| + 1
    ensures var expected := AllOffspring(values, fitnesses, name, exp, draws, sqrt);
      && (r.Failure? <==> expected.Failure?)
      && (r.Failure? ==> r.error == expected.error)
      && (r.Success? ==> ContentsOf(r.value) == (ContentsOf(start) + expected.value)[..PopulationSize])
    ensures r.Success? ==> WellOwned(r.value)
  {
    ghost var elite := ContentsOf(start);
    FillingStart(values, fitnesses, name, exp, draws, sqrt, elite);
    var next := start;
    var t := 0;
    ghost var children: seq<seq<Gene>> := [];
    while |next| < PopulationSize
      invariant WellOwned(population) && values == ContentsOf(population) && WellOwned(next)
      invariant Filling(values, fitnesses, name, exp, draws, sqrt, elite, t, ContentsOf(next), children)
      decreases PopulationSize - |next|
    {
      var round, born := FillRound(population, values, fitnesses, name, exp, draws, sqrt, elite, t, next, children);
      if round.Failure? {
        return Failure(round.error);
      }
      next, t, children := round.value, t + 1, children + born;
    }
    FillingDone(values, fitnesses, name, exp, draws, sqrt, elite, t, ContentsOf(next), children);
    r := Success(next);
  }

  /** One generation's construction of next_population: the elite clone, then the fill
      loop. Parents come from `population`; the method changes no object that existed
      before it (it has no modifies clause), and each chromosome of the next population
      owns its gene objects alone. */
  method NextGeneration(population: seq<Chromosome>, fitnesses: seq<real>, name: string, exp: Exp,
                        draws: seq<RoundDraw>, sqrt: Sqrt)
    returns (r: Result<seq<Chromosome>, StepError>)
    requires WellOwned(population) && FullLength(ContentsOf(population)) && |fitnesses| == |population|
    requires PositiveOn(exp, fitnesses)
    requires |draws| == Rounds(|population|)
    requires forall t :: 0 <= t < |draws| ==> ValidRoundDraw(|population|, fitnesses, draws[t])
    ensures var expected := NextPopulation(ContentsOf(population), fitnesses, name, exp, draws, sqrt);
      && (r.Failure? <==> expected.Failure?)
      && (r.Failure? ==> r.error == expected.error)
      && (r.Success? ==> ContentsOf(r.value) == expected.value)
    ensures r.Success? ==> WellOwned(r.value)
  {
    ghost var values := ContentsOf(population);
    if population == [] {
      return Failure(EmptyPopulation);
    }
    ReprsOfAllocated(population);
    var next: seq<Chromosome> := [];
    if Elitism {
      var best := ArgMax(fitnesses);
      WellOwnedElements(population);
      ContentsOfElements(population);
      var clone := population[best].Clone();
      WellOwnedAppend([], clone);
      assert [] + [clone] == [clone];
      next := [clone];
    }
    assert |next| == EliteCount(|population|);
    ghost var elite := ContentsOf(next);
    assert elite == if Elitism then [values[ArgMax(fitnesses)]] else [];
    var filled := Fill(population, values, fitnesses, name, exp, draws, sqrt, next);
    if filled.Failure? {
      return Failure(SelectionFailed(filled.error));
    }
    r := Success(filled.value);
  }
}
