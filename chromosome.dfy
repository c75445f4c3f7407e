/** A chromosome of ga_shapes/chromosome.py: an ordered list of gene objects, painted onto a
    white canvas in list order. The class keeps, as ghost state, the list of the genes'
    values (Contents) and the set of objects it owns (Repr); Valid() ties the two to the
    list and says that no two positions share a gene object, which from_parents and clone
    guarantee by deep-copying. */
module Chromosomes {
  import opened Config
  import opened Wrappers
  import opened Canvas
  import opened Genes

  /** The end of a Python slice xs[:s] or the start of xs[s:] for a list of length n: a
      negative s counts from the end, and either way it is clamped into [0, n]. */
  function SliceIndex(n: nat, s: int): (k: nat)
    ensures k <= n
    ensures 0 <= s <= n ==> k == s
    ensures s > n ==> k == n
    ensures s < 0 ==> k == if n + s < 0 then 0 else n + s
  {
    if s < 0 then (if n + s < 0 then 0 else n + s) else if s > n then n else s
  }

  /** g1.genes[:s] + g2.genes[s:], on values. */
  function Crossed<T>(a: seq<T>, b: seq<T>, s: int): seq<T> {
    a[..SliceIndex(|a|, s)] + b[SliceIndex(|b|, s)..]
  }

  /** With parents of equal length n and a split in [1, n - 1] (crossover draws it in
      [1, NUM_GENES - 2]), the children of crossover have length n; child 1 takes the first
      s genes of self and the rest of other, child 2 the opposite, so at every position
      the two children hold the two parents' genes; each child holds at least one gene of
      each parent; and the two children together hold exactly the parents' genes. */
  lemma {:induction false} CrossoverStructure<T>(a: seq<T>, b: seq<T>, s: int)
    requires |a| == |b| && 1 <= s < |a|
    ensures |Crossed(a, b, s)| == |a| && |Crossed(b, a, s)| == |a|
    ensures forall i :: 0 <= i < s ==> Crossed(a, b, s)[i] == a[i] && Crossed(b, a, s)[i] == b[i]
    ensures forall i :: s <= i < |a| ==> Crossed(a, b, s)[i] == b[i] && Crossed(b, a, s)[i] == a[i]
    ensures forall i :: 0 <= i < |a| ==>
      multiset{Crossed(a, b, s)[i], Crossed(b, a, s)[i]} == multiset{a[i], b[i]}
    ensures Crossed(a, b, s)[0] == a[0] && Crossed(a, b, s)[|a| - 1] == b[|a| - 1]
    ensures Crossed(b, a, s)[0] == b[0] && Crossed(b, a, s)[|a| - 1] == a[|a| - 1]
    ensures multiset(Crossed(a, b, s)) + multiset(Crossed(b, a, s)) == multiset(a) + multiset(b)
  {
    CrossedAt(a, b, s);
    CrossedAt(b, a, s);
    CrossedPairs(a, b, s);
    CrossedMultiset(a, b, s);
  }

  /** Position by position, a child takes its first parent's genes before the split and
      its second parent's from there on. */
  lemma {:induction false} CrossedAt<T>(a: seq<T>, b: seq<T>, s: int)
    requires |a| == |b| && 0 <= s <= |a|
    ensures |Crossed(a, b, s)| == |a|
    ensures forall i :: 0 <= i < s ==> Crossed(a, b, s)[i] == a[i]
    ensures forall i :: s <= i < |a| ==> Crossed(a, b, s)[i] == b[i]
  {
    CrossedSplit(a, b, s);
  }

  lemma {:induction false} CrossedPairs<T>(a: seq<T>, b: seq<T>, s: int)
    requires |a| == |b| && 0 <= s <= |a|
    ensures forall i :: 0 <= i < |a| ==>
      multiset{Crossed(a, b, s)[i], Crossed(b, a, s)[i]} == multiset{a[i], b[i]}
  {
    CrossedAt(a, b, s);
    CrossedAt(b, a, s);
    forall i | 0 <= i < |a|
      ensures multiset{Crossed(a, b, s)[i], Crossed(b, a, s)[i]} == multiset{a[i], b[i]}
    {
      if i >= s {
        assert multiset{b[i], a[i]} == multiset{a[i], b[i]};
      }
    }
  }

  lemma {:induction false} CrossedMultiset<T>(a: seq<T>, b: seq<T>, s: int)
    requires |a| == |b| && 0 <= s <= |a|
    ensures multiset(Crossed(a, b, s)) + multiset(Crossed(b, a, s)) == multiset(a) + multiset(b)
  {
    CrossedSplit(a, b, s);
    CrossedSplit(b, a, s);
    assert a[..s] + a[s..] == a;
    assert b[..s] + b[s..] == b;
    calc {
      multiset(Crossed(a, b, s)) + multiset(Crossed(b, a, s));
      multiset(a[..s]) + multiset(b[s..]) + (multiset(b[..s]) + multiset(a[s..]));
      multiset(a[..s] + a[s..]) + multiset(b[..s] + b[s..]);
    }
  }

  lemma CrossedSplit<T>(a: seq<T>, b: seq<T>, s: int)
    requires 0 <= s <= |a| && s <= |b|
    ensures Crossed(a, b, s) == a[..s] + b[s..]
  {
  }

  /** Crossed of two non-empty lists is non-empty, so from_parents never falls back to
      random genes. */
  lemma CrossedNonEmpty<T>(a: seq<T>, b: seq<T>, s: int)
    requires |a| > 0 && |b| > 0
    ensures |Crossed(a, b, s)| > 0
  {
  }

  /** The values of genes after Chromosome.mutate with gene index `index` and coin `coin`:
      below GENE_LOCAL_MUTATION_PROB the gene at index mutates locally, otherwise it is
      replaced by a fresh gene built from `replacement`; every other gene is unchanged. */
  function MutatedAt(gs: seq<Gene>, index: nat, coin: real, noise: Noise, replacement: GeneDraw, sqrt: Sqrt): (r: seq<Gene>)
    requires index < |gs|
    ensures |r| == |gs|
    ensures forall j :: 0 <= j < |gs| && j != index ==> r[j] == gs[j]
    ensures coin < GeneLocalMutationProb ==> r[index] == Mutated(gs[index], noise, sqrt)
    ensures coin >= GeneLocalMutationProb ==> r[index] == Drawn(replacement, sqrt)
  {
    gs[index := if coin < GeneLocalMutationProb then Mutated(gs[index], noise, sqrt) else Drawn(replacement, sqrt)]
  }

  /** np.sqrt is exact wherever a gene's foci distance is taken. */
  predicate ExactFocalDistance(g: Gene, sqrt: Sqrt) {
    g.Ellipse? ==> IsSquareRoot(sqrt(FociDistanceSquared(g) as real), FociDistanceSquared(g) as real)
  }

  /** Chromosome.mutate keeps every gene well formed: the untouched ones trivially, the
      mutated one by MutatedWellFormed, a replacement by DrawnWellFormed. */
  lemma MutatedAtWellFormed(gs: seq<Gene>, index: nat, coin: real, noise: Noise, replacement: GeneDraw, sqrt: Sqrt)
    requires index < |gs|
    requires forall j :: 0 <= j < |gs| ==> WellFormed(gs[j], sqrt)
    requires InDrawRange(replacement)
    requires ExactFocalDistance(MutatedAt(gs, index, coin, noise, replacement, sqrt)[index], sqrt)
    ensures var r := MutatedAt(gs, index, coin, noise, replacement, sqrt);
      forall j :: 0 <= j < |r| ==> WellFormed(r[j], sqrt)
  {
    if coin < GeneLocalMutationProb {
      MutatedWellFormed(gs[index], noise, sqrt);
    } else {
      DrawnWellFormed(replacement, sqrt);
    }
  }

  /** Painter's order: the canvas after applying genes gs[0], gs[1], ... in turn to cv. */
  function PaintAll(gs: seq<Gene>, sqrt: Sqrt, raster: Rasterizer, cv: seq<real>): (r: seq<real>)
    requires |cv| == CanvasSize
    ensures |r| == CanvasSize
    decreases |gs|
  {
    if gs == [] then cv else Painted(gs[|gs| - 1], sqrt, raster, PaintAll(gs[..|gs| - 1], sqrt, raster, cv))
  }

  /** Painting a list then another is painting their concatenation. */
  lemma {:induction false} PaintAllAppend(gs: seq<Gene>, hs: seq<Gene>, sqrt: Sqrt, raster: Rasterizer, cv: seq<real>)
    requires |cv| == CanvasSize
    ensures PaintAll(gs + hs, sqrt, raster, cv) == PaintAll(hs, sqrt, raster, PaintAll(gs, sqrt, raster, cv))
    decreases |hs|
  {
    if hs == [] {
      assert gs + hs == gs;
    } else {
      assert (gs + hs)[..|gs + hs| - 1] == gs + hs[..|hs| - 1];
      PaintAllAppend(gs, hs[..|hs| - 1], sqrt, raster, cv);
    }
  }

  /** Genes whose colours lie in [0, 255] and alphas in [0, 1] keep a canvas in [0, 255]. */
  lemma {:induction false} PaintAllInRange(gs: seq<Gene>, sqrt: Sqrt, raster: Rasterizer, cv: seq<real>)
    requires |cv| == CanvasSize && InByteRange(cv)
    requires forall i :: 0 <= i < |gs| ==> IsByteColor(gs[i].color) && 0.0 <= gs[i].alpha <= 1.0
    ensures InByteRange(PaintAll(gs, sqrt, raster, cv))
    decreases |gs|
  {
    if gs != [] {
      PaintAllInRange(gs[..|gs| - 1], sqrt, raster, cv);
      PaintedInRange(gs[|gs| - 1], sqrt, raster, PaintAll(gs[..|gs| - 1], sqrt, raster, cv));
    }
  }

  /** What rendering a chromosome of well-formed genes produces: the quantised painting
      equals the painting itself, each value an integer in [0, 255]. */
  lemma RenderExact(gs: seq<Gene>, sqrt: Sqrt, raster: Rasterizer)
    requires forall i :: 0 <= i < |gs| ==> WellFormed(gs[i], sqrt)
    ensures var painted := PaintAll(gs, sqrt, raster, White());
      InByteRange(painted) &&
      forall k :: 0 <= k < CanvasSize ==> Quantize(painted)[k] == painted[k].Floor
  {
    PaintAllInRange(gs, sqrt, raster, White());
  }

  /** The outcome of Chromosome.mutate: the list index may be out of range (IndexError). */
  datatype Outcome = Done | IndexError

  function Objects(refs: seq<GeneRef>): set<object> {
    set i | 0 <= i < |refs| :: refs[i].Obj()
  }

  predicate DistinctObjects(refs: seq<GeneRef>) {
    forall i, j :: 0 <= i < j < |refs| ==> refs[i].Obj() != refs[j].Obj()
  }

  /** A list that Python treats as false: None or []. */
  predicate Falsy(given: Option<seq<GeneRef>>) {
    given.None? || given.value == []
  }

  /** [copy.deepcopy(g) for g in genes]: a new object per gene, of the same value, in
      order. */
  method CopyGenes(genes: seq<GeneRef>) returns (copies: seq<GeneRef>)
    ensures |copies| == |genes| && DistinctObjects(copies)
    ensures forall j :: 0 <= j < |copies| ==> fresh(copies[j].Obj()) && copies[j].Value() == genes[j].Value()
  {
    copies := [];
    for i := 0 to |genes|
      invariant |copies| == i
      invariant forall j :: 0 <= j < i ==> fresh(copies[j].Obj()) && copies[j].Value() == genes[j].Value()
      invariant DistinctObjects(copies)
    {
      var copy := genes[i].Copy();
      copies := copies + [copy];
    }
  }

  class Chromosome {
    var genes: seq<GeneRef>
    ghost var Contents: seq<Gene>
    ghost var Repr: set<object>

    ghost predicate Valid()
      reads this, Repr
    {
      && this in Repr
      && Repr == {this} + Objects(genes)
      && |genes| == |Contents| && |genes| > 0
      && DistinctObjects(genes)
      && (forall i :: 0 <= i < |genes| ==> genes[i].Obj() in Repr && genes[i].Value() == Contents[i])
    }

    /** Chromosome(genes): keeps a non-empty list; None or [] builds NUM_GENES fresh genes,
        gene i from draw i. */
    constructor (given: Option<seq<GeneRef>>, draws: seq<GeneDraw>, sqrt: Sqrt)
      requires Falsy(given) ==> |draws| == NumGenes
      requires !Falsy(given) ==> DistinctObjects(given.value)
      ensures Valid()
      ensures !Falsy(given) ==> genes == given.value && Repr == {this} + Objects(given.value)
      ensures !Falsy(given) ==> forall i :: 0 <= i < |genes| ==> Contents[i] == given.value[i].Value()
      ensures Falsy(given) ==> |Contents| == NumGenes && fresh(Repr)
      ensures Falsy(given) ==> forall i :: 0 <= i < NumGenes ==> Contents[i] == Drawn(draws[i], sqrt)
    {
      if !Falsy(given) {
        genes := given.value;
        Contents := seq(|given.value|, i requires 0 <= i < |given.value| reads Objects(given.value) => given.value[i].Value());
        Repr := {this} + Objects(given.value);
      } else {
        var built: seq<GeneRef> := [];
        for i := 0 to NumGenes
          invariant |built| == i
          invariant forall j :: 0 <= j < i ==> fresh(built[j].Obj()) && built[j].Value() == Drawn(draws[j], sqrt)
          invariant DistinctObjects(built)
        {
          var g := GeneRef.New(draws[i], sqrt);
          built := built + [g];
        }
        genes := built;
        Contents := seq(NumGenes, i requires 0 <= i < NumGenes => Drawn(draws[i], sqrt));
        Repr := {this} + Objects(built);
      }
    }

    /** Chromosome.from_parents(g1, g2, s): deep copies of g1.genes[:s] + g2.genes[s:]. */
    static method FromParents(g1: Chromosome, g2: Chromosome, split: int) returns (c: Chromosome)
      requires g1.Valid() && g2.Valid()
      ensures c.Valid() && fresh(c.Repr)
      ensures c.Contents == Crossed(g1.Contents, g2.Contents, split)
    {
      var parents := Crossed(g1.genes, g2.genes, split);
      ghost var values := Crossed(g1.Contents, g2.Contents, split);
      assert |parents| == |values|;
      assert forall i :: 0 <= i < |parents| ==> parents[i].Value() == values[i];
      var copies := CopyGenes(parents);
      CrossedNonEmpty(g1.genes, g2.genes, split);
      // The list is non-empty, so the constructor keeps it and draws nothing.
      c := new Chromosome(Some(copies), [], _ => 0.0);
    }

    /** clone: a chromosome of deep copies of the genes, so of equal value. */
    method Clone() returns (c: Chromosome)
      requires Valid()
      ensures c.Valid() && fresh(c.Repr)
      ensures c.Contents == Contents
    {
      var copies := CopyGenes(genes);
      // The list is non-empty, so the constructor keeps it and draws nothing.
      c := new Chromosome(Some(copies), [], _ => 0.0);
    }

    /** crossover(other) with split point `split`, drawn by randint(1, NUM_GENES - 2):
        from_parents(self, other, split) and from_parents(other, self, split). */
    method Crossover(other: Chromosome, split: int) returns (child1: Chromosome, child2: Chromosome)
      requires Valid() && other.Valid()
      requires 1 <= split <= NumGenes - 2
      ensures child1.Valid() && child2.Valid() && fresh(child1.Repr) && fresh(child2.Repr)
      ensures child1.Repr !! child2.Repr
      ensures child1.Contents == Crossed(Contents, other.Contents, split)
      ensures child2.Contents == Crossed(other.Contents, Contents, split)
    {
      child1 := FromParents(this, other, split);
      child2 := FromParents(other, this, split);
    }

    /** mutate with gene index `index` (randint(0, NUM_GENES - 1)), coin `coin`
        (random.random()), the noise of a local mutation and the draws of a replacement
        gene. The index is not checked against the list's length: past its end, Python
        raises IndexError and nothing changes. */
    method Mutate(index: nat, coin: real, noise: Noise, replacement: GeneDraw, sqrt: Sqrt) returns (outcome: Outcome)
      requires Valid()
      requires index < NumGenes && 0.0 <= coin < 1.0
      modifies Repr
      ensures Valid() && fresh(Repr - old(Repr))
      ensures outcome == IndexError <==> index >= |old(Contents)|
      ensures outcome == IndexError ==> Contents == old(Contents)
      ensures outcome == Done ==> Contents == MutatedAt(old(Contents), index, coin, noise, replacement, sqrt)
    {
      if index >= |genes| {
        return IndexError;
      }
      if coin < GeneLocalMutationProb {
        MutateGeneAt(index, noise, sqrt);
      } else {
        ReplaceGeneAt(index, replacement, sqrt);
      }
      outcome := Done;
    }

    /** The local branch of mutate: the gene at index mutates in place. */
    method MutateGeneAt(index: nat, noise: Noise, sqrt: Sqrt)
      requires Valid() && index < |Contents|
      modifies Repr
      ensures Valid() && Repr == old(Repr)
      ensures Contents == old(Contents)[index := Mutated(old(Contents)[index], noise, sqrt)]
    {
      genes[index].Mutate(noise, sqrt);
      Contents := Contents[index := genes[index].Value()];
    }

    /** The other branch of mutate: a fresh gene takes the place of the one at index. */
    method ReplaceGeneAt(index: nat, replacement: GeneDraw, sqrt: Sqrt)
      requires Valid() && index < |Contents|
      modifies this
      ensures Valid() && fresh(Repr - old(Repr))
      ensures Contents == old(Contents)[index := Drawn(replacement, sqrt)]
    {
      var g := GeneRef.New(replacement, sqrt);
      genes := genes[index := g];
      Contents := Contents[index := g.Value()];
      Repr := {this} + Objects(genes);
    }

    /** render_numpy: a white canvas, every gene applied in list order, then clipped to
        [0, 255] and truncated to integers. */
    method Render(sqrt: Sqrt, raster: Rasterizer) returns (img: seq<int>)
      requires Valid()
      ensures img == Quantize(PaintAll(Contents, sqrt, raster, White()))
    {
      var canvas := new real[CanvasSize](_ => 255.0);
      assert canvas[..] == White();
      for i := 0 to |genes|
        invariant canvas[..] == PaintAll(Contents[..i], sqrt, raster, White())
      {
        assert Contents[..i + 1][..i] == Contents[..i];
        genes[i].Apply(canvas, sqrt, raster);
      }
      assert Contents[..|genes|] == Contents;
      img := seq(CanvasSize, k requires 0 <= k < CanvasSize reads canvas => Clip(canvas[k], 0.0, 255.0).Floor);
    }
  }
}
