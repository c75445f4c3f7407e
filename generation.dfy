/** One pass of the loop over `gen` in main.py's evolve: every individual is scored, the
    first best index is taken, the snapshot decision is made, and the next population
    replaces the current one. */
module Generation {
  import opened Config
  import opened Wrappers
  import opened Canvas
  import opened Genes
  import opened Chromosomes
  import opened Selection
  import opened Fitness
  import opened Evolution

  /** Whether generation gen saves its best image. */
  predicate SnapshotDue(gen: nat) {
    SaveBestImages && (gen % SaveEveryNGenerations == 0 || gen == NumGenerations - 1)
  }

  /** The last generation is always saved and no generation but the multiples of
      SAVE_EVERY_N_GENERATIONS and the last is; every generation of the run has a saved one
      among itself and the SAVE_EVERY_N_GENERATIONS - 1 before it. */
  lemma SnapshotWithin(gen: nat)
    requires gen < NumGenerations
    ensures SnapshotDue(NumGenerations - 1)
    ensures SnapshotDue(gen) ==> gen % SaveEveryNGenerations == 0 || gen == NumGenerations - 1
    ensures exists g: nat :: gen < g + SaveEveryNGenerations && g <= gen && SnapshotDue(g)
  {
    var q := gen / SaveEveryNGenerations;
    var g: nat := q * SaveEveryNGenerations;
    assert gen < g + SaveEveryNGenerations && g <= gen;
    assert g % SaveEveryNGenerations == 0;
    assert SnapshotDue(g);
  }

  /** [evaluate(ind) for ind in population], on the chromosome values, against target. */
  function Scores(values: seq<seq<Gene>>, target: Raster, sqrt: Sqrt, raster: Rasterizer): (s: seq<real>)
    requires |target| == CanvasSize
    ensures |s| == |values|
  {
    seq(|values|, i requires 0 <= i < |values| => Score(Quantize(PaintAll(values[i], sqrt, raster, White())), target))
  }

  /** Scoring one more individual appends its score. */
  lemma ScoresAppend(values: seq<seq<Gene>>, i: nat, target: Raster, sqrt: Sqrt, raster: Rasterizer)
    requires |target| == CanvasSize && i < |values|
    ensures Scores(values[..i + 1], target, sqrt, raster)
      == Scores(values[..i], target, sqrt, raster) + [Score(Quantize(PaintAll(values[i], sqrt, raster, White())), target)]
  {
  }

  /** No fitness is positive, and an individual scores 0 exactly when its rendering is the
      target. */
  lemma ScoresAtMostZero(values: seq<seq<Gene>>, target: Raster, sqrt: Sqrt, raster: Rasterizer)
    requires |target| == CanvasSize
    ensures forall i :: 0 <= i < |values| ==>
      var s := Scores(values, target, sqrt, raster);
      s[i] <= 0.0 && (s[i] == 0.0 <==> Quantize(PaintAll(values[i], sqrt, raster, White())) == target)
  {
    forall i | 0 <= i < |values|
      ensures var s := Scores(values, target, sqrt, raster);
        s[i] <= 0.0 && (s[i] == 0.0 <==> Quantize(PaintAll(values[i], sqrt, raster, White())) == target)
    {
      ScoreAtMostZero(Quantize(PaintAll(values[i], sqrt, raster, White())), target);
    }
  }

  /** The best fitness of a generation is 0 exactly when some individual renders the target. */
  lemma BestScoreZero(values: seq<seq<Gene>>, target: Raster, sqrt: Sqrt, raster: Rasterizer)
    requires |target| == CanvasSize && |values| > 0
    ensures var s := Scores(values, target, sqrt, raster);
      s[ArgMax(s)] == 0.0 <==>
        exists i :: 0 <= i < |values| && Quantize(PaintAll(values[i], sqrt, raster, White())) == target
  {
    var s := Scores(values, target, sqrt, raster);
    ScoresAtMostZero(values, target, sqrt, raster);
    if exists i :: 0 <= i < |values| && Quantize(PaintAll(values[i], sqrt, raster, White())) == target {
      var i :| 0 <= i < |values| && Quantize(PaintAll(values[i], sqrt, raster, White())) == target;
      assert s[i] == 0.0;
      assert s[i] <= s[ArgMax(s)];
    }
  }

  /** Draws valid for a population of n whatever its fitnesses are: a draw's validity depends
      on the fitness list only through its length. */
  ghost predicate DrawsFor(n: nat, draws: seq<RoundDraw>) {
    && |draws| == Rounds(n)
    && forall t, fs: seq<real> :: 0 <= t < |draws| && |fs| == n ==> ValidRoundDraw(n, fs, draws[t])
  }

  /** The evaluator is neither a chromosome nor a gene object, so no chromosome owns it. */
  lemma {:induction false} EvaluatorNotOwned(evaluator: FitnessEvaluator, population: seq<Chromosome>)
    requires WellOwned(population)
    ensures evaluator !in ReprsOf(population)
    decreases |population|
  {
    if population != [] {
      var n := |population| - 1;
      EvaluatorNotOwned(evaluator, population[..n]);
      var c := population[n];
      forall i | 0 <= i < |c.genes|
        ensures c.genes[i].Obj() != evaluator
      {
        match c.genes[i]
        case EllipseRef(e) =>
        case TriangleRef(t) =>
        case LineRef(l) =>
      }
    }
  }

  /** The fitness list of main.py:50: each individual in turn is evaluated, the first call
      caching the target. The chromosomes are not changed. */
  method EvaluateAll(evaluator: FitnessEvaluator, population: seq<Chromosome>, loaded: Raster,
                     sqrt: Sqrt, raster: Rasterizer)
    returns (fitnesses: seq<real>)
    requires evaluator.Valid() && IsImage(loaded) && WellOwned(population)
    modifies evaluator
    ensures evaluator.Valid() && WellOwned(population) && ContentsOf(population) == old(ContentsOf(population))
    ensures evaluator.target == if old(evaluator.target).None? && population != [] then Some(loaded) else old(evaluator.target)
    ensures |fitnesses| == |population|
    ensures evaluator.target.Some? ==> fitnesses == Scores(ContentsOf(population), evaluator.target.value, sqrt, raster)
  {
    ghost var values := ContentsOf(population);
    EvaluatorNotOwned(evaluator, population);
    ContentsOfElements(population);
    WellOwnedElements(population);
    ReprsOfAllocated(population);
    fitnesses := [];
    for i := 0 to |population|
      invariant evaluator.Valid()
      invariant evaluator.target == if old(evaluator.target).None? && i > 0 then Some(loaded) else old(evaluator.target)
      invariant |fitnesses| == i
      invariant forall j :: 0 <= j < |population| ==> population[j].Contents == values[j] && population[j].Valid()
      invariant evaluator.target.Some? ==> fitnesses == Scores(values[..i], evaluator.target.value, sqrt, raster)
    {
      var score := evaluator.Evaluate(population[i], loaded, sqrt, raster);
      assert score == Score(Quantize(PaintAll(values[i], sqrt, raster, White())), evaluator.target.value);
      ScoresAppend(values, i, evaluator.target.value, sqrt, raster);
      fitnesses := fitnesses + [score];
    }
    assert values[..|population|] == values;
  }

  /** The body of the loop over gen: the fitnesses, best_idx (np.argmax, the first best
      index), whether the best image is saved, and the next population that replaces the
      current one. np.argmax of an empty list raises, so an empty population fails before
      the snapshot. */
  method GenerationStep(evaluator: FitnessEvaluator, population: seq<Chromosome>, gen: nat, loaded: Raster,
                        name: string, exp: Exp, draws: seq<RoundDraw>, sqrt: Sqrt, raster: Rasterizer)
    returns (r: Result<seq<Chromosome>, StepError>, best: nat, snapshot: bool)
    requires evaluator.Valid() && IsImage(loaded) && WellOwned(population) && FullLength(ContentsOf(population))
    requires forall x :: exp(x) > 0.0
    requires DrawsFor(|population|, draws)
    modifies evaluator
    ensures evaluator.Valid()
    ensures evaluator.target == if old(evaluator.target).None? && population != [] then Some(loaded) else old(evaluator.target)
    ensures population == [] ==> r == Failure(EmptyPopulation) && !snapshot
    ensures population != [] ==>
      var fitnesses := Scores(old(ContentsOf(population)), evaluator.target.value, sqrt, raster);
      var expected := NextPopulation(old(ContentsOf(population)), fitnesses, name, exp, draws, sqrt);
      && best == ArgMax(fitnesses)
      && snapshot == SnapshotDue(gen)
      && (r.Failure? <==> expected.Failure?)
      && (r.Failure? ==> r.error == expected.error)
      && (r.Success? ==> WellOwned(r.value) && ContentsOf(r.value) == expected.value)
  {
    var fitnesses := EvaluateAll(evaluator, population, loaded, sqrt, raster);
    if population == [] {
      return Failure(EmptyPopulation), 0, false;
    }
    best := ArgMax(fitnesses);
    snapshot := SaveBestImages && (gen % SaveEveryNGenerations == 0 || gen == NumGenerations - 1);
    WellOwnedElements(population);
    assert forall t :: 0 <= t < |draws| ==> ValidRoundDraw(|population|, fitnesses, draws[t]);
    r := NextGeneration(population, fitnesses, name, exp, draws, sqrt);
  }
}
