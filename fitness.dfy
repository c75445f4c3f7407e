/** The fitness of ga_shapes/fitness.py: minus the mean squared difference between the
    rendered raster of a chromosome and the target raster, over every pixel and channel.
    The target is read from disk on the first evaluation and cached in the module global
    _target_rgb, here the field `target` of a FitnessEvaluator object. */
module Fitness {
  import opened Wrappers
  import opened Canvas
  import opened Genes
  import opened Chromosomes

  /** A raster of channel values, flattened like the canvas. */
  type Raster = seq<int>

  predicate IsImage(a: Raster) {
    |a| == CanvasSize && forall k :: 0 <= k < |a| ==> 0 <= a[k] <= 255
  }

  function SumSquares(a: Raster, b: Raster): (s: nat)
    requires |a| == |b|
    decreases |a|
  {
    if a == [] then 0
    else SumSquares(a[..|a| - 1], b[..|b| - 1]) + (a[|a| - 1] - b[|b| - 1]) * (a[|a| - 1] - b[|b| - 1])
  }

  /** -np.mean((candidate - target) ** 2). */
  function Score(candidate: Raster, target: Raster): real
    requires |candidate| == |target| > 0
  {
    -(SumSquares(candidate, target) as real / |candidate| as real)
  }

  /** The sum of squares is zero exactly when the rasters agree everywhere. */
  lemma {:induction false} SumSquaresZero(a: Raster, b: Raster)
    requires |a| == |b|
    ensures SumSquares(a, b) == 0 <==> a == b
    decreases |a|
  {
    if a != [] {
      var n := |a| - 1;
      SumSquaresZero(a[..n], b[..n]);
      var d := a[n] - b[n];
      if d != 0 {
        assert d * d > 0 by { SquarePositive(d); }
      }
      assert a == a[..n] + [a[n]] && b == b[..n] + [b[n]];
    }
  }

  lemma SquarePositive(d: int)
    requires d != 0
    ensures d * d > 0
  {
    if d < 0 {
      assert d * d == (-d) * (-d);
    }
  }

  /** With every value in [0, 255], each squared difference is at most 255^2. */
  lemma {:induction false} SumSquaresBound(a: Raster, b: Raster)
    requires |a| == |b|
    requires forall k :: 0 <= k < |a| ==> 0 <= a[k] <= 255 && 0 <= b[k] <= 255
    ensures SumSquares(a, b) <= 255 * 255 * |a|
    decreases |a|
  {
    if a != [] {
      var n := |a| - 1;
      SumSquaresBound(a[..n], b[..n]);
      var d := a[n] - b[n];
      assert -255 <= d <= 255;
      SquareBound(d, 255);
    }
  }

  /** The score is at most 0, and 0 exactly when the candidate equals the target. */
  lemma ScoreAtMostZero(candidate: Raster, target: Raster)
    requires |candidate| == |target| > 0
    ensures Score(candidate, target) <= 0.0
    ensures Score(candidate, target) == 0.0 <==> candidate == target
  {
    SumSquaresZero(candidate, target);
  }

  /** For two images the score is at least -255^2. */
  lemma ScoreAtLeast(candidate: Raster, target: Raster)
    requires IsImage(candidate) && IsImage(target)
    ensures Score(candidate, target) >= -65025.0
  {
    SumSquaresBound(candidate, target);
    var n := |candidate| as real;
    var s := SumSquares(candidate, target) as real;
    assert s <= 65025.0 * n;
    assert s / n <= 65025.0;
  }

  /** The holder of _target_rgb, the cached target raster. */
  class FitnessEvaluator {
    var target: Option<Raster>

    ghost predicate Valid()
      reads this
    {
      target.Some? ==> IsImage(target.value)
    }

    /** The module starts with _target_rgb = None. */
    constructor ()
      ensures Valid() && target == None
    {
      target := None;
    }

    /** evaluate(chromosome): on the first call, _load_target stores `loaded` (the target
        file's pixels, as read); then the chromosome's rendering is scored against the
        cached target. The chromosome is not changed. */
    method Evaluate(c: Chromosome, loaded: Raster, sqrt: Sqrt, raster: Rasterizer) returns (score: real)
      requires Valid() && c.Valid() && IsImage(loaded)
      modifies this
      ensures Valid()
      ensures target == if old(target).None? then Some(loaded) else old(target)
      ensures score == Score(Quantize(PaintAll(c.Contents, sqrt, raster, White())), target.value)
    {
      if target.None? {
        target := Some(loaded);
      }
      var candidate := c.Render(sqrt, raster);
      score := Score(candidate, target.value);
    }
  }
}
