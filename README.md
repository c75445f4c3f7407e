# Evolving shapes toward a target picture — a Dafny model

This project models the evolutionary engine of GeneticAlgorithmsProject in Dafny and proves properties of that model. The program approximates a target image with a chromosome of 50 translucent shapes. A shape (a gene) is one of three kinds:

- an ellipse, given by two foci and a bound on the sum of distances to them;
- a triangle;
- a thick line.

Each shape has an RGB colour and an opacity. Each generation does the following:

1. It renders every chromosome onto a white 128×128 canvas, blending the genes in list order.
2. It scores each rendering by the negative mean squared error against the target.
3. It keeps a clone of the best chromosome (elitism).
4. It fills the rest of the next population: each round selects two parents (tournament or softmax roulette), crosses them over at one split point, and mutates each child with probability `MUTATION_RATE`.

The model is split into one module per file:

| module | file | what it models |
|---|---|---|
| `Config` | config.dfy | the configuration constants of config.py |
| `Wrappers` | wrappers.dfy | `Option` and `Result` |
| `Canvas` | canvas.dfy | the H×W×3 float canvas, numpy `clip`, `int()`, the alpha blend, the region blend loop, and the final `clip(...).astype(uint8)` |
| `Genes` | genes.dfy | `EllipseGene`, `TriangleGene`, `LineGene` as classes with in-place `Mutate` and `Apply`, their values as the datatype `Gene`, and the datatype `GeneRef` for Python's dynamic dispatch over the three classes |
| `Chromosomes` | chromosome.dfy | the `Chromosome` class: constructor, `from_parents`, `clone`, `crossover`, `mutate`, `render_numpy` |
| `Selection` | selection.dfy | tournament selection, softmax/CDF/`searchsorted` roulette, `select_parents` |
| `Fitness` | fitness.dfy | the score, and the `_target_rgb` load-once cache as an object |
| `Evolution` | evolution.dfy | the next population: elitism, the fill loop, the per-child mutation coin |
| `Generation` | generation.dfy | one pass of the loop over `gen` in `evolve`: evaluation, `argmax`, the snapshot decision, and the replacement of the population |

Randomness enters as explicit draws. Every value the program takes from `random` or `np.random` is a parameter of the operation that consumes it, and its `requires` restricts it to the range that call produces:

- the crossover split;
- the mutation index and coins;
- Gaussian noise;
- the tournament sample;
- the softmax `r`;
- the constructor draws.

Two numeric functions are also parameters:

- `np.sqrt`. Statements that need it exact say so (`IsSquareRoot`, `ExactDistancesAt`).
- `np.exp`. The only thing assumed of it is that it is positive.

Each stateful entity is a Dafny class whose fields change in place:

- the gene classes;
- `Chromosome`, which holds a sequence of gene references, with a ghost `Contents` (the gene values) and a ghost `Repr` (the objects it owns);
- `FitnessEvaluator`.

Every method on these classes is proved against a function on values (`Mutated`, `Painted`, `Crossed`, `MutatedAt`, `PaintAll`, `NextPopulation`, `Scores`). The properties the program relies on are proved as lemmas about those functions.

The model follows the code as written:

- The fitness is the negated mean squared RGB error alone (ga_shapes/fitness.py:14-19).
- Softmax exponentiates the fitnesses as they are (ga_shapes/selection.py:25-27).
- The roulette picks the first index whose cumulative probability is strictly greater than `r`: `searchsorted` with `side="right"` (ga_shapes/selection.py:38).
- An ellipse is given by two foci and a bound on the sum of the distances to them (ga_shapes/gen.py:25-40).

## Model

| member | source | states |
|---|---|---|
| `Canvas.Clip` | ga_shapes/gen.py:73-76 | numpy `clip` (`minimum(maximum(v, lo), hi)`): the result never exceeds `hi`, is at least `lo` whenever `lo <= hi`, is `v` itself when `v` is in range, `lo` when `v` is below a non-empty range and `hi` when `v` is above `hi` |
| `Canvas.Trunc` | ga_shapes/gen.py:43-46 | Python `int()` on a float truncates toward zero: the floor for non-negative values; for negative `v`, the integer in `[v, 0]` less than one above `v` (the ceiling) |
| `Canvas.ClampCoordinate` | ga_shapes/gen.py:43-58 | a coordinate moved by noise and clamped always lands in `[0, bound-1]`, is the floor of `v + noise` whenever that is already in range, and lands on 0 or `bound-1` when pushed past an edge |
| `Canvas.Blend` | ga_shapes/gen.py:112-116 | the compositing formula: an uncovered pixel keeps its value; a covered one becomes `(1-alpha)*old + alpha*color` |
| `Canvas.BlendInRange` | ga_shapes/gen.py:161-165 | with old value and colour in [0,255] and alpha in [0,1], a blended value stays in [0,255] |
| `Canvas.CanvasExtensional` | ga_shapes/chromosome.py:48 | the `(H, W, 3)` array is a flat row-major buffer: two canvases that agree at every (row, column, channel) are equal |
| `Canvas.BlendBoxAt` | ga_shapes/gen.py:111-116 | the region blend at pixel (y, x), channel c: blended with the mask when inside the box, unchanged outside |
| `Canvas.BlendBoxKeepsUncovered` | ga_shapes/gen.py:111 | a pixel outside the box, or not covered by the mask, keeps its value |
| `Canvas.BlendBoxUncovered` | ga_shapes/gen.py:105-106 | when no pixel of the box is covered, blending changes nothing, so the early return loses nothing |
| `Canvas.BlendBoxCovering` | ga_shapes/gen.py:96-116 | when the box contains every covered pixel, blending over the box equals blending over the whole canvas |
| `Canvas.BlendBoxInRange` | ga_shapes/gen.py:220-224 | blending an in-range colour with alpha in [0,1] keeps every value of an in-range canvas in [0,255] |
| `Canvas.White` | ga_shapes/chromosome.py:48 | `np.full(..., 255)`: the starting canvas has H×W×3 values, every one 255 |
| `Canvas.Quantize` | ga_shapes/chromosome.py:51 | `clip(0,255).astype(uint8)`: every output is an integer in [0,255], and an in-range value becomes its floor |
| `Canvas.BlendRegion` | ga_shapes/gen.py:111-116 | the three nested loops leave exactly the region blend of the old canvas, and every pixel outside the box is unchanged |
| `Genes.Uniform` | ga_shapes/gen.py:34 | `random.uniform(a, b)` lies in [a, b] whenever a <= b |
| `Genes.FocalDistanceFits` | ga_shapes/gen.py:59-64 | in-canvas foci are less than 180 apart, so `[focal_distance+1, 2*max(W,H)]` is a non-empty clip range |
| `Genes.DrawnWellFormed` | ga_shapes/gen.py:25-40 | a freshly constructed gene of any kind is well formed: geometry in the canvas, colour in [0,255], alpha in [0,1) (it may exceed the 0.99 a mutation allows), an ellipse's distance sum in its range, a triangle with three points, a line width in [1,10] |
| `Genes.MutatedColor` | ga_shapes/gen.py:67-70 | every mutated colour channel is in [0,255], and equals `color + noise` when that is in range |
| `Genes.MutatedAlpha` | ga_shapes/gen.py:150-153 | the mutated alpha is in [0, 0.99], and equals `alpha + noise` when that is in range |
| `Genes.MutatedSumDistances` | ga_shapes/gen.py:60-64 | the new distance sum is at most 256 and at least `focal_distance + 1` whenever that range is non-empty |
| `Genes.MutatedWidth` | ga_shapes/gen.py:199-202 | the mutated line width is in [1, 10] |
| `Genes.MutatedPoint` | ga_shapes/gen.py:134-141 | a mutated triangle point lies in the canvas |
| `Genes.MutatedPoints` | ga_shapes/gen.py:132-143 | mutation keeps the number of points, and every point lies in the canvas |
| `Genes.MutatedWellFormed` | ga_shapes/gen.py:42-76 | whatever the noise, a mutated gene (ellipse, or the triangle and line of gen.py:131-212) keeps its kind, stays well formed, and has alpha at most 0.99; for an ellipse this assumes `np.sqrt` is exact on the new foci |
| `Genes.EllipseMask` | ga_shapes/gen.py:99-103 | the mask is true at a pixel exactly when the sum of its distances to the foci is at most `sum_distances` |
| `Genes.SourceEllipseBox` | ga_shapes/gen.py:82-90 | the bounding box as written, with exclusive upper bound `center + max_radius`, always lies within the canvas |
| `Genes.SourceEllipseBoxMissesCoveredPixel` | ga_shapes/gen.py:82-103 | counterexample: the well-formed ellipse with foci (0,0) and (1,0) and sum 3.5 covers pixel (x=2, y=0), and the box as written excludes it |
| `Genes.EllipseBox` | ga_shapes/gen.py:82-90 | the corrected box of the finding below, with inclusive bound `center + max_radius`, lies within the canvas |
| `Genes.EllipseBoxContainsEllipse` | ga_shapes/gen.py:82-106 | every pixel of the ellipse lies in the corrected box when `np.sqrt` is exact there |
| `Genes.EllipsePaintedWithinBox` | ga_shapes/gen.py:87-116 | `apply` as written changes no pixel outside rows `y_min..y_max-1` and columns `x_min..x_max-1` of its box, nor any pixel the ellipse does not cover |
| `Genes.EllipsePaintedInBox` | ga_shapes/gen.py:96-116 | inside its box, `apply` as written blends exactly the pixels the ellipse covers, both early returns included; with `EllipsePaintedWithinBox` this fixes the whole painted canvas |
| `Genes.SourcePaintingMissesCoveredPixel` | ga_shapes/gen.py:82-116 | counterexample on a white canvas: the ellipse covers pixel (x=2, y=0), `apply` as written leaves it at 255, and the corrected painting blends it to 127.5 |
| `Genes.CorrectedEllipsePaintedIsFullBlend` | ga_shapes/gen.py:78-116 | the intended half of the finding: with exact distances, painting over the corrected box (box, both early returns, region blend) equals blending the ellipse mask over the whole canvas |
| `Genes.PaintedInRange` | ga_shapes/gen.py:155-165 | applying any gene whose colour is in [0,255] and alpha in [0,1] keeps the canvas in [0,255] |
| `Genes.EllipseGene.constructor` | ga_shapes/gen.py:25-40 | the new gene's value is the one its draws determine |
| `Genes.EllipseGene.Copy` | ga_shapes/chromosome.py:20 | `copy.deepcopy` of an ellipse: a new object of equal value |
| `Genes.EllipseGene.Mutate` | ga_shapes/gen.py:42-76 | the fields, updated one after another in place, end as `MutatedEllipse` of the old value |
| `Genes.EllipseGene.Apply` | ga_shapes/gen.py:78-116 | the canvas ends as `EllipsePainted` of the old canvas, over the box as written: unchanged when the box is empty or uncovered, otherwise the region blend over the box |
| `Genes.TriangleGene.constructor` | ga_shapes/gen.py:120-129 | the new triangle's value is the one its draws determine |
| `Genes.TriangleGene.Copy` | ga_shapes/chromosome.py:25 | a new triangle object of equal value |
| `Genes.TriangleGene.Mutate` | ga_shapes/gen.py:131-153 | the point-by-point loop builds exactly `MutatedPoints`, then colour and alpha are clipped |
| `Genes.TriangleGene.Apply` | ga_shapes/gen.py:155-165 | the rasterised polygon mask is blended over the whole canvas |
| `Genes.LineGene.constructor` | ga_shapes/gen.py:169-179 | the new line's value is the one its draws determine |
| `Genes.LineGene.Copy` | ga_shapes/chromosome.py:20 | a new line object of equal value |
| `Genes.LineGene.Mutate` | ga_shapes/gen.py:181-212 | the endpoints, width, colour and alpha end as `MutatedLine` of the old value |
| `Genes.LineGene.Apply` | ga_shapes/gen.py:214-224 | the rasterised stroke mask is blended over the whole canvas |
| `Genes.GeneRef.Value` | ga_shapes/chromosome.py:7 | a reference's kind (ellipse, triangle or line) matches the kind of its value |
| `Genes.GeneRef.New` | ga_shapes/chromosome.py:13 | `random.choice(GENE_CLASSES)()`: a fresh object whose value is the drawn gene |
| `Genes.GeneRef.Copy` | ga_shapes/chromosome.py:20 | `copy.deepcopy(g)`: a fresh object of equal value |
| `Genes.GeneRef.Mutate` | ga_shapes/chromosome.py:35 | `self.genes[index].mutate()` dispatches to the gene's class, and the value becomes `Mutated` of the old one |
| `Genes.GeneRef.Apply` | ga_shapes/chromosome.py:50 | `gene.apply(canvas)` leaves `Painted` of the old canvas |
| `Chromosomes.SliceIndex` | ga_shapes/chromosome.py:19 | where a Python slice bound falls: `s` itself when in range, clamped to the length above it, counted from the end for negative `s` |
| `Chromosomes.CrossoverStructure` | ga_shapes/chromosome.py:40-45 | with a split in [1, n-1], both children have length n; child1 is `self[:s] + other[s:]` and child2 is `other[:s] + self[s:]`; at every index the two children hold the two parents' genes; each child has a gene of each parent; together they are a permutation of the parents' genes |
| `Chromosomes.CrossedAt` | ga_shapes/chromosome.py:19 | position by position, a child takes its first parent's genes before the split and its second parent's from the split on |
| `Chromosomes.CrossedSplit` | ga_shapes/chromosome.py:19 | for an in-range split, the slice-and-concatenate is `a[..s] + b[s..]` |
| `Chromosomes.CrossedNonEmpty` | ga_shapes/chromosome.py:21 | crossing non-empty parents gives a non-empty list, so the constructor keeps it and does not draw fresh genes |
| `Chromosomes.MutatedAt` | ga_shapes/chromosome.py:32-38 | mutation keeps the length and every gene but the one at `index`, which is locally mutated when the coin is below 0.8 and replaced by a fresh gene otherwise |
| `Chromosomes.MutatedAtWellFormed` | ga_shapes/chromosome.py:32-38 | mutation keeps every gene of a chromosome well formed |
| `Chromosomes.PaintAllAppend` | ga_shapes/chromosome.py:49-50 | rendering is a left fold: painting a list and then another is painting their concatenation |
| `Chromosomes.PaintAllInRange` | ga_shapes/chromosome.py:48-50 | genes with colours in [0,255] and alphas in [0,1] keep a canvas in [0,255] |
| `Chromosomes.RenderExact` | ga_shapes/chromosome.py:47-51 | for well-formed genes the final clip does nothing, and each output value is the floor of the painted value |
| `Chromosomes.CopyGenes` | ga_shapes/chromosome.py:20 | `[copy.deepcopy(g) for g in genes]`: as many fresh, pairwise distinct objects of equal values, in order |
| `Chromosomes.Chromosome.constructor` | ga_shapes/chromosome.py:11-14 | a non-empty list is kept as given; `None` or `[]` builds NUM_GENES fresh genes from the draws |
| `Chromosomes.Chromosome.FromParents` | ga_shapes/chromosome.py:16-21 | a new chromosome of deep copies whose values are `g1[:s] + g2[s:]` |
| `Chromosomes.Chromosome.Clone` | ga_shapes/chromosome.py:23-25 | a new chromosome, owning only fresh objects, whose gene values equal the original's; the original is unchanged |
| `Chromosomes.Chromosome.Crossover` | ga_shapes/chromosome.py:40-45 | two new chromosomes with disjoint objects, `self[:s] + other[s:]` and `other[:s] + self[s:]`; the parents are unchanged |
| `Chromosomes.Chromosome.Mutate` | ga_shapes/chromosome.py:27-38 | an index past the list is an `IndexError` that changes nothing; otherwise the genes become `MutatedAt` of the old ones |
| `Chromosomes.Chromosome.MutateGeneAt` | ga_shapes/chromosome.py:35 | the gene at `index` mutates in place; no other gene and no ownership changes |
| `Chromosomes.Chromosome.ReplaceGeneAt` | ga_shapes/chromosome.py:38 | the gene at `index` is replaced by a fresh gene drawn anew; no other gene changes |
| `Chromosomes.Chromosome.Render` | ga_shapes/chromosome.py:47-51 | the image is `Quantize` of the genes painted in order onto a white canvas |
| `Selection.ArgMax` | main.py:53 | the first index of a maximal fitness: no element is larger, and every earlier one is strictly smaller |
| `Selection.TournamentSelect` | ga_shapes/selection.py:14-21 | a sample larger than the population is an error; otherwise the winner is a sampled individual, no sampled candidate is fitter, and every earlier candidate in the sample is strictly less fit |
| `Selection.SampleCoversAll` | ga_shapes/selection.py:19 | a sample of n distinct positions out of n contains every position |
| `Selection.TournamentOfWholePopulation` | ga_shapes/selection.py:19-21 | when the sample is the whole population, the tournament returns an individual of maximal fitness |
| `Selection.SoftmaxIsDistribution` | ga_shapes/selection.py:25-27 | `exps / sum(exps)` is non-negative and sums to 1 |
| `Selection.CumulativeSumIsPrefixSum` | ga_shapes/selection.py:35 | entry i of `np.cumsum` is the sum of the first i+1 probabilities |
| `Selection.Cdf` | ga_shapes/selection.py:35-36 | an empty array fails; otherwise the last entry is exactly 1.0 and the others are the running sums |
| `Selection.CdfOfDistribution` | ga_shapes/selection.py:35-36 | for a distribution, every CDF entry is its prefix sum, and the CDF is non-decreasing |
| `Selection.SearchSortedRight` | ga_shapes/selection.py:38 | the returned index has every earlier entry at most `r`, and the entry at it (if any) exceeds `r` |
| `Selection.SearchSortedRightCounts` | ga_shapes/selection.py:38 | on sorted input, the right insertion point is the number of entries at most `r`, numpy's definition |
| `Selection.SoftmaxSelect` | ga_shapes/selection.py:29-39 | no fitnesses fail (`cdf[-1]` of an empty array), and an index past a shorter population is an error; a non-empty population with one fitness each always yields an index in range |
| `Selection.SoftmaxSelectRoulette` | ga_shapes/selection.py:34-39 | the selected index i is the one whose probability bucket `[sum p[..i], sum p[..i+1])` contains `r` |
| `Selection.StrategyNamed` | ga_shapes/selection.py:41-44 | "tournament" and "softmax" name the two strategies; any other name is missing |
| `Selection.SelectParents` | ga_shapes/selection.py:45-53 | an unknown name fails; with a known name, a failed first selection passes its error through, a failed second one likewise, and two successful selections give the pair of their individuals, which are in range |
| `Selection.SelectParentsSucceeds` | ga_shapes/selection.py:45-53 | with a known strategy and at least TOURNAMENT_SIZE individuals, `select_parents` never fails |
| `Fitness.SumSquaresZero` | ga_shapes/fitness.py:19 | the sum of squared differences is 0 exactly when the rasters are equal |
| `Fitness.SumSquaresBound` | ga_shapes/fitness.py:18-19 | with values in [0,255], each squared difference adds at most 255² |
| `Fitness.ScoreAtMostZero` | ga_shapes/fitness.py:19 | the score is at most 0, and 0 exactly when the rendering equals the target |
| `Fitness.ScoreAtLeast` | ga_shapes/fitness.py:18-19 | for two images the score is at least -255² |
| `Fitness.FitnessEvaluator.constructor` | ga_shapes/fitness.py:6 | the cache starts empty |
| `Fitness.FitnessEvaluator.Evaluate` | ga_shapes/fitness.py:14-19 | the target is loaded only while the cache is empty and reused afterwards; the score is that of the chromosome's rendering against the cached target; the chromosome is not changed |
| `Evolution.MaybeMutated` | main.py:76-79 | a child keeps NUM_GENES genes, and every gene but the one at the mutation index is the crossed child's own, whatever the coin |
| `Evolution.MaybeMutatedWellFormed` | main.py:76-79 | the coin-guarded mutation keeps every gene of a child well formed |
| `Evolution.ChildWellFormed` | main.py:74-79 | a child of well-formed parents, crossed and maybe mutated, is well formed |
| `Evolution.OffspringWellFormed` | main.py:73-79 | both children of a successful round of well-formed parents are well formed |
| `Evolution.AllOffspringWellFormed` | main.py:72-83 | every child of a successful fill loop over a well-formed population is well formed |
| `Evolution.Offspring` | main.py:73-79 | a round fails exactly when parent selection fails, and otherwise yields two children of NUM_GENES genes |
| `Evolution.AllOffspring` | main.py:72-83 | k rounds yield 2k children of NUM_GENES genes |
| `Evolution.NextPopulationShape` | main.py:65-85 | the next population has exactly POPULATION_SIZE chromosomes of NUM_GENES genes; the first is the best individual's value; the others are the children in append order |
| `Evolution.NextPopulationWellFormed` | main.py:65-85 | a well-formed population is followed by a well-formed one: the elite and every child |
| `Evolution.OffspringFailsUniformly` | ga_shapes/selection.py:19 | the fill loop fails exactly when the strategy name is unknown, or when the strategy is tournament and the population is smaller than TOURNAMENT_SIZE |
| `Evolution.AllOffspringFailsAt` | main.py:72-73 | the first round whose selection fails decides the error of the whole fill loop |
| `Evolution.WellOwnedAppend` | main.py:81-83 | appending a chromosome that owns its objects alone keeps the population well owned, extending its values by the new chromosome's |
| `Evolution.MaybeMutate` | main.py:76-79 | the child's genes become `MaybeMutated` of the old ones |
| `Evolution.Breed` | main.py:74-79 | two fresh children with disjoint objects, sharing nothing with the current population; their values are the crossed parents, each maybe mutated |
| `Evolution.BreedRound` | main.py:73-79 | one round: the population and the partial next population are unchanged, and the children are those of `Offspring`, or its error |
| `Evolution.AppendChildren` | main.py:81-83 | child1 is appended, and child2 only while the next population is below POPULATION_SIZE; ownership is kept |
| `Evolution.FillingStep` | main.py:72-83 | a successful round extends the values of the fill loop by its children, truncated at POPULATION_SIZE |
| `Evolution.FillRound` | main.py:72-83 | one pass of the loop body strictly grows the next population up to at most POPULATION_SIZE, or fails with the error of the whole fill loop |
| `Evolution.Fill` | main.py:72-83 | the fill loop terminates; on success its values are the elite followed by the children, cut at POPULATION_SIZE, and ownership is kept |
| `Evolution.NextGeneration` | main.py:65-85 | builds `next_population`: success or failure as `NextPopulation`, with its values on success; each chromosome owns its objects alone |
| `Generation.SnapshotWithin` | main.py:61-62 | the last generation is always saved; a saved generation is a multiple of SAVE_EVERY_N_GENERATIONS or the last; every generation has a saved one among itself and the 49 before it |
| `Generation.ScoresAtMostZero` | main.py:50 | no fitness in a generation is positive, and an individual scores 0 exactly when its rendering is the target |
| `Generation.BestScoreZero` | main.py:53-54 | the best fitness is 0 exactly when some individual renders the target |
| `Generation.EvaluatorNotOwned` | main.py:50 | the fitness evaluator is none of the objects a well-owned population owns, so evaluating changes no chromosome |
| `Generation.EvaluateAll` | main.py:50 | the fitness list scores every chromosome against the cached target, which is loaded on the first evaluation; no chromosome changes |
| `Generation.GenerationStep` | main.py:48-85 | an empty population fails (`np.argmax` of nothing); otherwise `best_idx` is the first argmax of the fitnesses, the snapshot decision is that of line 61, and the new population's values are `NextPopulation` of the old values, or its error |

## Left out

- Reading the target file (`_load_target`: PIL open, convert, resize) is left out. Its pixels are the parameter `loaded` of `Evaluate`, assumed to be an image with values in [0,255].
- `save_best_image` is left out, along with writing PNG files, `os.makedirs`, `setup_environment`/seeding and the `print` logging. The model keeps only the decision whether a snapshot is due.
- The mean fitness computed for logging (main.py:55) is left out: it affects nothing.
- PIL's polygon and line rasterisation are left out. The mask they produce is the parameter `raster: Gene -> Mask`, with values in {0,1}.
- `np.sqrt` and `np.exp` are floating-point library calls and are parameters (`Sqrt`, `Exp`). `np.exp` is assumed positive. Statements about ellipses require `np.sqrt` to be exact where they need it.
- `float32`/`uint8` arithmetic is modelled on mathematical reals plus an explicit floor. Rounding, NaN and infinity are not modelled.
- Softmax underflow is not modelled. Every fitness is at most 0, so `np.exp` cannot overflow; but the float32 `np.exp` of a fitness below about -104 is 0.0. When every fitness is that low, `exps / sum(exps)` is 0/0, the probabilities and the CDF are NaN, and what `searchsorted` returns on them is not modelled. `Selection.PositiveOn` (a positive `np.exp`) excludes exactly this case, so the roulette lemmas hold only while some fitness is above that bound.
- The Gaussian draws enter already scaled by their sigmas (`GENE_MUTATION_SIGMA_*`), so those constants do not appear.
- `SELECTION_STRATEGY` is imported by selection.py but not defined in config.py. The strategy name is therefore a parameter, and an unknown name is the `KeyError` case.
- `IMAGE_SIZE` is read two ways. The canvas `np.ones((*IMAGE_SIZE, 3))` (ga_shapes/chromosome.py:48) takes it as (rows, columns). PIL takes it as (width, height): the masks of ga_shapes/gen.py:156 and 215, the resized target of ga_shapes/fitness.py:11 and `WIDTH, HEIGHT` at ga_shapes/gen.py:13. The two readings agree for the 128×128 configuration, and the model uses one square canvas.
- `create_initial_population`, the outer loop over `NUM_GENERATIONS`, and the final evaluation and save after the loop are left out. The model covers one pass of the loop body, and the same argmax and evaluation cover the final step.
- `Chromosomes.Chromosome.constructor`: requires distinct gene objects in a given list. Lists that share a gene object are not modelled, since every caller passes deep copies.
- `Generation.GenerationStep`: takes its round draws already chosen (`DrawsFor`) for every possible fitness list. Their validity depends only on the population size.
- `Evolution.NextGeneration`: does not state that the new chromosomes are fresh objects, only that each owns its objects alone and that no object that existed before is changed.
- `Evolution.MaybeMutatedWellFormed`, `ChildWellFormed`, `OffspringWellFormed`, `AllOffspringWellFormed` and `NextPopulationWellFormed`: assume `np.sqrt` is exact (`ExactSqrt`) and the replacement genes are drawn in range, as `MutatedWellFormed` does for one gene.
- `Genes.CorrectedEllipsePainted`: the box-corrected painting exists only as the intended half of the finding below. `Apply`, `Painted` and everything built on them use the box as written.
- `Selection.SearchSortedRightCounts`: numpy's result is stated only for sorted input, which is the only input the CDF of a distribution produces.
- `Selection.TournamentOfWholePopulation`: stated for a population of exactly TOURNAMENT_SIZE, since `random.sample` always draws TOURNAMENT_SIZE candidates.

## Findings

| source | as written | input that shows it | evidently intended | confidence | as-written member | corrected member |
|---|---|---|---|---|---|---|
| ga_shapes/gen.py:82-90 | the ellipse's bounding box ends at `center + max_radius` exclusive (`y_max = min(height, center_y + max_radius)`, likewise for x), with `center = (f1 + f2) // 2` and `max_radius = int(sum_distances / 2) + 1` | foci (0,0) and (1,0), `sum_distances` 3.5: the center is 0 and `max_radius` is 2, so the box covers columns 0..1; but pixel (x=2, y=0) is at distances 2 and 1 from the foci, 3 <= 3.5, so it is inside the ellipse and is never painted | a box that contains every pixel of the ellipse: rows and columns up to `center + max_radius` inclusive (exclusive end `center + max_radius + 1`), so that painting blends every covered pixel | not executed | `Genes.SourcePaintingMissesCoveredPixel` | `Genes.CorrectedEllipsePaintedIsFullBlend` |
