/** The three gene variants of ga_shapes/gen.py: an ellipse given by two foci and a sum of
    distances, a triangle given by three points, and a line given by two endpoints and a
    stroke width. Each carries an RGB colour and an opacity alpha. The datatype Gene is a
    gene's value; the classes EllipseGene, TriangleGene and LineGene are the mutable objects
    that chromosomes hold, with in-place Mutate and Apply. GeneRef is the tagged union of
    references through which a chromosome dispatches to the right class. */
module Genes {
  import opened Config
  import opened Canvas

  datatype Point = Point(x: int, y: int)

  datatype Gene =
    | Ellipse(f1x: int, f1y: int, f2x: int, f2y: int, sumDistances: real, color: Color, alpha: real)
    | Triangle(points: seq<Point>, color: Color, alpha: real)
    | Line(x1: int, y1: int, x2: int, y2: int, width: int, color: Color, alpha: real)

  /** np.sqrt, a floating-point library call, is a parameter of the model. */
  type Sqrt = real -> real

  /** The coverage mask a gene draws: PIL's polygon and line rasterisation for triangles
      and lines, the floating-point focal-distance test for ellipses. */
  type Rasterizer = Gene -> Mask

  /** The draws of np.random.normal one gene mutation consumes, already scaled by their
      sigma: position(i) is the i-th coordinate draw (x then y, point by point), size the
      draw for the ellipse's distance sum, width the draw for a line's width, color the
      three channel draws and alpha the opacity draw. */
  datatype Noise = Noise(position: nat -> real, size: real, width: real, color: Color, alpha: real)

  /** The draws of a gene constructor. The variant is random.choice(GENE_CLASSES); the
      integers come from random.randint, spread is the random.random() inside
      random.uniform, colour channels are random.randint(0, 255) and alpha is
      random.uniform(0.0, 1.0). */
  datatype GeneDraw =
    | EllipseDraw(f1x: int, f1y: int, f2x: int, f2y: int, spread: real, color: Color, alpha: real)
    | TriangleDraw(points: seq<Point>, color: Color, alpha: real)
    | LineDraw(x1: int, y1: int, x2: int, y2: int, width: int, color: Color, alpha: real)

  /** max(WIDTH, HEIGHT) * 2: the largest distance sum an ellipse may have. */
  const MaxSumDistances: real := 2.0 * (if Width >= Height then Width else Height) as real

  /** The largest opacity a mutation leaves. */
  const MaxMutatedAlpha: real := 0.99

  predicate IsIntegral(v: real) {
    v == v.Floor as real
  }

  /** The ranges of the constructor draws. */
  predicate InDrawRange(d: GeneDraw) {
    && (forall c :: 0 <= c < 3 ==> 0.0 <= d.color[c] <= 255.0 && IsIntegral(d.color[c]))
    && 0.0 <= d.alpha < 1.0
    && match d
       case EllipseDraw(f1x, f1y, f2x, f2y, spread, _, _) =>
         InCanvas(f1y, f1x) && InCanvas(f2y, f2x) && 0.0 <= spread < 1.0
       case TriangleDraw(points, _, _) =>
         |points| == 3 && forall i :: 0 <= i < 3 ==> InCanvas(points[i].y, points[i].x)
       case LineDraw(x1, y1, x2, y2, width, _, _) =>
         InCanvas(y1, x1) && InCanvas(y2, x2) && 1 <= width <= 5
  }

  function FocalDistanceSquared(f1x: int, f1y: int, f2x: int, f2y: int): nat {
    (f2x - f1x) * (f2x - f1x) + (f2y - f1y) * (f2y - f1y)
  }

  function FociDistanceSquared(g: Gene): nat
    requires g.Ellipse?
  {
    FocalDistanceSquared(g.f1x, g.f1y, g.f2x, g.f2y)
  }

  function DrawnFociDistanceSquared(d: GeneDraw): nat
    requires d.EllipseDraw?
  {
    FocalDistanceSquared(d.f1x, d.f1y, d.f2x, d.f2y)
  }

  predicate IsSquareRoot(r: real, x: real) {
    r >= 0.0 && r * r == x
  }

  /** random.uniform(a, b), given the random.random() draw u. */
  function Uniform(a: real, b: real, u: real): (r: real)
    ensures a <= b && 0.0 <= u < 1.0 ==> a <= r <= b
  {
    if a <= b && 0.0 <= u < 1.0 then
      ProductNonNegative(b - a, u);
      ProductNonNegative(b - a, 1.0 - u);
      a + (b - a) * u
    else
      a + (b - a) * u
  }

  /** The gene a constructor builds from its draws. */
  function Drawn(d: GeneDraw, sqrt: Sqrt): Gene {
    match d
    case EllipseDraw(f1x, f1y, f2x, f2y, spread, color, alpha) =>
      var focalDistance := sqrt(FocalDistanceSquared(f1x, f1y, f2x, f2y) as real);
      Ellipse(f1x, f1y, f2x, f2y, Uniform(focalDistance + 1.0, MaxSumDistances, spread), color, alpha)
    case TriangleDraw(points, color, alpha) => Triangle(points, color, alpha)
    case LineDraw(x1, y1, x2, y2, width, color, alpha) => Line(x1, y1, x2, y2, width, color, alpha)
  }

  /** In-canvas foci are at most sqrt(127^2 + 127^2), about 179.6, apart, so the range
      [focal distance + 1, MaxSumDistances] that constructor and mutation draw from is
      never empty. */
  lemma {:induction false} FocalDistanceFits(f1x: int, f1y: int, f2x: int, f2y: int, focalDistance: real)
    requires InCanvas(f1y, f1x) && InCanvas(f2y, f2x)
    requires IsSquareRoot(focalDistance, FocalDistanceSquared(f1x, f1y, f2x, f2y) as real)
    ensures focalDistance < 180.0
    ensures focalDistance + 1.0 <= MaxSumDistances
  {
    var dx, dy := f2x - f1x, f2y - f1y;
    assert dx * dx <= 127 * 127 by { SquareBound(dx, 127); }
    assert dy * dy <= 127 * 127 by { SquareBound(dy, 127); }
    RootBelow(focalDistance, 180.0);
  }

  lemma RootBelow(a: real, b: real)
    requires 0.0 <= a && 0.0 < b && a * a < b * b
    ensures a < b
  {
    assert (b - a) * (b + a) == b * b - a * a;
  }

  lemma SquareBound(d: int, bound: nat)
    requires -(bound as int) <= d <= bound
    ensures d * d <= bound * bound
  {
    var m: nat := if d < 0 then -d else d;
    assert d * d == m * m;
    MulMonotone(m, bound, m);
    MulMonotone(m, bound, bound);
  }

  lemma MulMonotone(a: nat, b: nat, c: nat)
    requires a <= b
    ensures a * c <= b * c
  {
    assert b * c - a * c == (b - a) * c;
  }

  /** The invariant every gene keeps (the geometry lies in the canvas, the distance sum of
      an ellipse in [focal distance + 1, MaxSumDistances], a line's width in [1, 10], a
      triangle has three points, colour channels in [0, 255] and alpha in [0, 1]). */
  predicate WellFormed(g: Gene, sqrt: Sqrt) {
    && IsByteColor(g.color)
    && 0.0 <= g.alpha <= 1.0
    && match g
       case Ellipse(f1x, f1y, f2x, f2y, sumDistances, _, _) =>
         && InCanvas(f1y, f1x) && InCanvas(f2y, f2x)
         && sqrt(FocalDistanceSquared(f1x, f1y, f2x, f2y) as real) + 1.0 <= sumDistances <= MaxSumDistances
       case Triangle(points, _, _) =>
         |points| == 3 && forall i :: 0 <= i < 3 ==> InCanvas(points[i].y, points[i].x)
       case Line(x1, y1, x2, y2, width, _, _) =>
         InCanvas(y1, x1) && InCanvas(y2, x2) && 1 <= width <= 10
  }

  /** A freshly constructed gene is well formed, with alpha below 1.0 (it may exceed 0.99
      until its first mutation), provided np.sqrt returns the square root. */
  lemma DrawnWellFormed(d: GeneDraw, sqrt: Sqrt)
    requires InDrawRange(d)
    requires d.EllipseDraw? ==>
      IsSquareRoot(sqrt(DrawnFociDistanceSquared(d) as real), DrawnFociDistanceSquared(d) as real)
    ensures WellFormed(Drawn(d, sqrt), sqrt)
    ensures Drawn(d, sqrt).alpha < 1.0
  {
    if d.EllipseDraw? {
      FocalDistanceFits(d.f1x, d.f1y, d.f2x, d.f2y, sqrt(DrawnFociDistanceSquared(d) as real));
    }
  }

  // Mutation: every field moves by its noise draw and is clipped back into range.

  /** np.clip(color + noise, 0, 255). */
  function MutatedColor(color: Color, noise: Color): (r: Color)
    ensures IsByteColor(r)
    ensures forall c :: 0 <= c < 3 && 0.0 <= color[c] + noise[c] <= 255.0 ==> r[c] == color[c] + noise[c]
  {
    seq(3, c requires 0 <= c < 3 => Clip(color[c] + noise[c], 0.0, 255.0))
  }

  /** float(np.clip(alpha + noise, 0.00, 0.99)). */
  function MutatedAlpha(alpha: real, noise: real): (r: real)
    ensures 0.0 <= r <= MaxMutatedAlpha
    ensures 0.0 <= alpha + noise <= MaxMutatedAlpha ==> r == alpha + noise
  {
    Clip(alpha + noise, 0.0, MaxMutatedAlpha)
  }

  /** float(np.clip(sum + noise, focal_distance + 1, max(WIDTH, HEIGHT) * 2)). */
  function MutatedSumDistances(sumDistances: real, noise: real, focalDistance: real): (r: real)
    ensures r <= MaxSumDistances
    ensures focalDistance + 1.0 <= MaxSumDistances ==> focalDistance + 1.0 <= r
  {
    Clip(sumDistances + noise, focalDistance + 1.0, MaxSumDistances)
  }

  /** int(np.clip(width + noise, 1, 10)). */
  function MutatedWidth(width: int, noise: real): (r: int)
    ensures 1 <= r <= 10
  {
    Trunc(Clip(width as real + noise, 1.0, 10.0))
  }

  /** Point i of a triangle after mutation; it consumes coordinate draws 2i and 2i + 1. */
  function MutatedPoint(p: Point, i: nat, noise: Noise): (r: Point)
    ensures InCanvas(r.y, r.x)
  {
    Point(ClampCoordinate(p.x, noise.position(2 * i), Width),
          ClampCoordinate(p.y, noise.position(2 * i + 1), Height))
  }

  function MutatedPoints(points: seq<Point>, noise: Noise): (r: seq<Point>)
    ensures |r| == |points|
    ensures forall i :: 0 <= i < |r| ==> InCanvas(r[i].y, r[i].x)
  {
    seq(|points|, i requires 0 <= i < |points| => MutatedPoint(points[i], i, noise))
  }

  /** EllipseGene.mutate: the focal distance of the new foci bounds the new distance sum. */
  function MutatedEllipse(g: Gene, noise: Noise, sqrt: Sqrt): (r: Gene)
    requires g.Ellipse?
    ensures r.Ellipse?
  {
    var f1x := ClampCoordinate(g.f1x, noise.position(0), Width);
    var f1y := ClampCoordinate(g.f1y, noise.position(1), Height);
    var f2x := ClampCoordinate(g.f2x, noise.position(2), Width);
    var f2y := ClampCoordinate(g.f2y, noise.position(3), Height);
    var focalDistance := sqrt(FocalDistanceSquared(f1x, f1y, f2x, f2y) as real);
    Ellipse(f1x, f1y, f2x, f2y, MutatedSumDistances(g.sumDistances, noise.size, focalDistance),
            MutatedColor(g.color, noise.color), MutatedAlpha(g.alpha, noise.alpha))
  }

  /** TriangleGene.mutate. */
  function MutatedTriangle(g: Gene, noise: Noise): (r: Gene)
    requires g.Triangle?
    ensures r.Triangle?
  {
    Triangle(MutatedPoints(g.points, noise), MutatedColor(g.color, noise.color), MutatedAlpha(g.alpha, noise.alpha))
  }

  /** LineGene.mutate; the width draw has sigma 1.0. */
  function MutatedLine(g: Gene, noise: Noise): (r: Gene)
    requires g.Line?
    ensures r.Line?
  {
    Line(ClampCoordinate(g.x1, noise.position(0), Width), ClampCoordinate(g.y1, noise.position(1), Height),
         ClampCoordinate(g.x2, noise.position(2), Width), ClampCoordinate(g.y2, noise.position(3), Height),
         MutatedWidth(g.width, noise.width),
         MutatedColor(g.color, noise.color), MutatedAlpha(g.alpha, noise.alpha))
  }

  /** A gene's local mutation, dispatched on its variant. */
  function Mutated(g: Gene, noise: Noise, sqrt: Sqrt): Gene {
    match g
    case Ellipse(_, _, _, _, _, _, _) => MutatedEllipse(g, noise, sqrt)
    case Triangle(_, _, _) => MutatedTriangle(g, noise)
    case Line(_, _, _, _, _, _, _) => MutatedLine(g, noise)
  }

  /** Whatever the noise, a mutated gene keeps its variant (and a triangle its number of
      points), its geometry lies in the canvas, its colour in [0, 255]^3 and its alpha in
      [0, 0.99]; an ellipse's distance sum lies in [focal distance + 1, MaxSumDistances]
      as soon as np.sqrt returns the square root of the new foci's squared distance. */
  lemma MutatedWellFormed(g: Gene, noise: Noise, sqrt: Sqrt)
    requires g.Ellipse? ==>
      var m := Mutated(g, noise, sqrt);
      IsSquareRoot(sqrt(FociDistanceSquared(m) as real), FociDistanceSquared(m) as real)
    requires g.Triangle? ==> |g.points| == 3
    ensures var m := Mutated(g, noise, sqrt);
      && WellFormed(m, sqrt)
      && m.alpha <= MaxMutatedAlpha
      && (m.Ellipse? <==> g.Ellipse?) && (m.Triangle? <==> g.Triangle?) && (m.Line? <==> g.Line?)
  {
    var m := Mutated(g, noise, sqrt);
    if g.Ellipse? {
      FocalDistanceFits(m.f1x, m.f1y, m.f2x, m.f2y, sqrt(FociDistanceSquared(m) as real));
    }
  }

  // Painting a gene onto the canvas.

  /** Whether pixel (y, x) lies in the ellipse: d1 + d2 <= sum_distances, with d1 and d2 its
      distances to the two foci as np.sqrt computes them. */
  predicate EllipseCovers(g: Gene, sqrt: Sqrt, y: int, x: int)
    requires g.Ellipse?
  {
    sqrt(FocalDistanceSquared(g.f1x, g.f1y, x, y) as real) + sqrt(FocalDistanceSquared(g.f2x, g.f2y, x, y) as real)
      <= g.sumDistances
  }

  /** np.sqrt returns the exact distances from pixel (y, x) to both foci. */
  predicate ExactDistancesAt(g: Gene, sqrt: Sqrt, y: int, x: int)
    requires g.Ellipse?
  {
    && IsSquareRoot(sqrt(FocalDistanceSquared(g.f1x, g.f1y, x, y) as real), FocalDistanceSquared(g.f1x, g.f1y, x, y) as real)
    && IsSquareRoot(sqrt(FocalDistanceSquared(g.f2x, g.f2y, x, y) as real), FocalDistanceSquared(g.f2x, g.f2y, x, y) as real)
  }

  /** The ellipse's boolean mask over the canvas (the source computes it on the bounding box
      only; pixels outside the box are never blended). */
  function EllipseMask(g: Gene, sqrt: Sqrt): (m: Mask)
    requires g.Ellipse?
    ensures forall y, x :: InCanvas(y, x) ==> (m[PixelIndex(y, x)] <==> EllipseCovers(g, sqrt, y, x))
  {
    var m := seq(PixelCount, k requires 0 <= k < PixelCount => EllipseCovers(g, sqrt, k / Width, k % Width));
    assert forall y, x :: InCanvas(y, x) ==> PixelIndex(y, x) / Width == y && PixelIndex(y, x) % Width == x;
    m
  }

  /** The bounding box exactly as EllipseGene.apply computes it: max_radius =
      int(sum_distances / 2) + 1 around the midpoint of the foci (floor division), with
      half-open upper bounds center + max_radius, clipped to the canvas. */
  function SourceEllipseBox(g: Gene): (b: Box)
    requires g.Ellipse?
    ensures WithinCanvas(b)
  {
    var maxRadius := Trunc(g.sumDistances / 2.0) + 1;
    var cx, cy := (g.f1x + g.f2x) / 2, (g.f1y + g.f2y) / 2;
    Box(Max(0, cy - maxRadius), Min(Height, cy + maxRadius), Max(0, cx - maxRadius), Min(Width, cx + maxRadius))
  }

  /** An ellipse with foci (0, 0) and (1, 0) and distance sum 3.5. */
  const BoxCounterexample: Gene := Ellipse(0, 0, 1, 0, 3.5, [0.0, 0.0, 0.0], 0.5)

  /** BoxCounterexample is a well-formed gene, and pixel (x, y) = (2, 0), at distances 2 and
      1 from its foci, lies inside it; yet the box as written stops at column center_x +
      max_radius = 0 + 2, so apply never paints that pixel. */
  lemma SourceEllipseBoxMissesCoveredPixel(sqrt: Sqrt)
    requires sqrt(4.0) == 2.0 && sqrt(1.0) == 1.0
    ensures WellFormed(BoxCounterexample, sqrt)
    ensures InCanvas(0, 2) && ExactDistancesAt(BoxCounterexample, sqrt, 0, 2)
    ensures EllipseCovers(BoxCounterexample, sqrt, 0, 2)
    ensures !InBox(SourceEllipseBox(BoxCounterexample), 0, 2)
  {
    CounterexampleWellFormed(sqrt);
    CounterexampleCovers(sqrt);
    CounterexampleOutsideBox();
  }

  lemma CounterexampleWellFormed(sqrt: Sqrt)
    requires sqrt(1.0) == 1.0
    ensures WellFormed(BoxCounterexample, sqrt)
  {
    assert FocalDistanceSquared(0, 0, 1, 0) == 1;
  }

  lemma CounterexampleCovers(sqrt: Sqrt)
    requires sqrt(4.0) == 2.0 && sqrt(1.0) == 1.0
    ensures ExactDistancesAt(BoxCounterexample, sqrt, 0, 2) && EllipseCovers(BoxCounterexample, sqrt, 0, 2)
  {
    assert FocalDistanceSquared(0, 0, 2, 0) == 4;
    assert FocalDistanceSquared(1, 0, 2, 0) == 1;
  }

  lemma CounterexampleOutsideBox()
    ensures !InBox(SourceEllipseBox(BoxCounterexample), 0, 2)
  {
    assert (3.5 / 2.0).Floor == 1;
  }

  /** The bounding box with inclusive upper bounds center + max_radius, which contains the
      whole ellipse (EllipseBoxContainsEllipse); CorrectedEllipsePainted uses this box. */
  function EllipseBox(g: Gene): (b: Box)
    requires g.Ellipse?
    ensures WithinCanvas(b)
  {
    var maxRadius := Trunc(g.sumDistances / 2.0) + 1;
    var cx, cy := (g.f1x + g.f2x) / 2, (g.f1y + g.f2y) / 2;
    Box(Max(0, cy - maxRadius), Min(Height, cy + maxRadius + 1),
        Max(0, cx - maxRadius), Min(Width, cx + maxRadius + 1))
  }

  /** A non-negative square root of dx^2 + dy^2 is at least |dx|. */
  lemma RootDominates(r: real, dx: int, dy: int)
    requires r >= 0.0 && r * r == (dx * dx + dy * dy) as real
    ensures -r <= dx as real <= r
  {
    var a := dx as real;
    assert (dx * dx) as real == a * a;
    SquareNonNegative(dy);
    assert a * a <= r * r;
    if a > r {
      SquareGreater(a, r);
    } else if -a > r {
      assert (-a) * (-a) == a * a;
      SquareGreater(-a, r);
    }
  }

  lemma SquareNonNegative(d: int)
    ensures d * d >= 0
  {
    var m: nat := if d < 0 then -d else d;
    assert d * d == m * m;
  }

  /** Squaring is strictly increasing on the non-negative reals. */
  lemma SquareGreater(u: real, r: real)
    requires u > r >= 0.0
    ensures u * u > r * r
  {
    assert (u - r) * (u + r) == u * u - r * r;
    ProductPositive(u - r, u + r);
  }

  lemma ProductPositive(a: real, b: real)
    requires a > 0.0 && b > 0.0
    ensures a * b > 0.0
  {
  }

  /** Along one axis, a point whose distances to the foci sum to at most s is within s / 2
      of their midpoint, so lies in [center - max_radius, center + max_radius]. */
  lemma AxisWithinRadius(p: int, q1: int, q2: int, d1: real, d2: real, s: real)
    requires -d1 <= (p - q1) as real <= d1 && -d2 <= (p - q2) as real <= d2 && d1 + d2 <= s
    ensures var maxRadius := Trunc(s / 2.0) + 1;
      (q1 + q2) / 2 - maxRadius <= p <= (q1 + q2) / 2 + maxRadius
  {
    var maxRadius := Trunc(s / 2.0) + 1;
    var c := (q1 + q2) / 2;
    assert s >= 0.0;
    assert (maxRadius as real) > s / 2.0;
    assert ((2 * p - q1 - q2) as real) <= s;
    assert ((q1 + q2 - 2 * p) as real) <= s;
    assert q1 + q2 - 1 <= 2 * c <= q1 + q2;
  }

  /** The exact distance from a focus to pixel (y, x) bounds both coordinate offsets. */
  lemma FocusAxes(d: real, fx: int, fy: int, y: int, x: int)
    requires IsSquareRoot(d, FocalDistanceSquared(fx, fy, x, y) as real)
    ensures -d <= (x - fx) as real <= d && -d <= (y - fy) as real <= d
  {
    var dx, dy := x - fx, y - fy;
    assert FocalDistanceSquared(fx, fy, x, y) == dx * dx + dy * dy;
    RootDominates(d, dx, dy);
    assert dx * dx + dy * dy == dy * dy + dx * dx;
    RootDominates(d, dy, dx);
  }

  /** A pixel within max_radius of the foci's midpoint on both axes lies in EllipseBox. */
  lemma WithinRadiusInBox(g: Gene, y: int, x: int)
    requires g.Ellipse? && InCanvas(y, x)
    requires var maxRadius := Trunc(g.sumDistances / 2.0) + 1;
      && (g.f1x + g.f2x) / 2 - maxRadius <= x <= (g.f1x + g.f2x) / 2 + maxRadius
      && (g.f1y + g.f2y) / 2 - maxRadius <= y <= (g.f1y + g.f2y) / 2 + maxRadius
    ensures InBox(EllipseBox(g), y, x)
  {
  }

  /** Every pixel of the ellipse lies in EllipseBox, when np.sqrt is exact at that pixel. */
  lemma EllipseBoxContainsEllipse(g: Gene, sqrt: Sqrt, y: int, x: int)
    requires g.Ellipse? && InCanvas(y, x) && ExactDistancesAt(g, sqrt, y, x)
    ensures EllipseCovers(g, sqrt, y, x) ==> InBox(EllipseBox(g), y, x)
  {
    if EllipseCovers(g, sqrt, y, x) {
      var d1 := sqrt(FocalDistanceSquared(g.f1x, g.f1y, x, y) as real);
      var d2 := sqrt(FocalDistanceSquared(g.f2x, g.f2y, x, y) as real);
      FocusAxes(d1, g.f1x, g.f1y, y, x);
      FocusAxes(d2, g.f2x, g.f2y, y, x);
      AxisWithinRadius(x, g.f1x, g.f2x, d1, d2, g.sumDistances);
      AxisWithinRadius(y, g.f1y, g.f2y, d1, d2, g.sumDistances);
      WithinRadiusInBox(g, y, x);
    }
  }

  /** The painting of apply over bounding box b: nothing when the box is empty or no pixel
      of it is in the ellipse, otherwise the blend of the ellipse's mask over the box. */
  function EllipsePaintedIn(g: Gene, sqrt: Sqrt, cv: seq<real>, b: Box): (r: seq<real>)
    requires g.Ellipse? && |cv| == CanvasSize && WithinCanvas(b)
    ensures |r| == CanvasSize
  {
    if IsEmptyBox(b) then cv
    else if !AnyCovered(EllipseMask(g, sqrt), b) then cv
    else BlendBox(cv, b, EllipseMask(g, sqrt), g.alpha, g.color)
  }

  /** EllipseGene.apply as written, over SourceEllipseBox. */
  function EllipsePainted(g: Gene, sqrt: Sqrt, cv: seq<real>): (r: seq<real>)
    requires g.Ellipse? && |cv| == CanvasSize
    ensures |r| == CanvasSize
  {
    EllipsePaintedIn(g, sqrt, cv, SourceEllipseBox(g))
  }

  /** The painting apply evidently intends, over the corrected box EllipseBox. */
  function CorrectedEllipsePainted(g: Gene, sqrt: Sqrt, cv: seq<real>): (r: seq<real>)
    requires g.Ellipse? && |cv| == CanvasSize
    ensures |r| == CanvasSize
  {
    EllipsePaintedIn(g, sqrt, cv, EllipseBox(g))
  }

  /** apply writes only pixels of its bounding box (rows y_min..y_max-1, columns
      x_min..x_max-1), and only those the ellipse covers. */
  lemma EllipsePaintedWithinBox(g: Gene, sqrt: Sqrt, cv: seq<real>, y: int, x: int, c: int)
    requires g.Ellipse? && |cv| == CanvasSize && InCanvas(y, x) && 0 <= c < 3
    requires !InBox(SourceEllipseBox(g), y, x) || !EllipseCovers(g, sqrt, y, x)
    ensures EllipsePainted(g, sqrt, cv)[CanvasIndex(y, x, c)] == cv[CanvasIndex(y, x, c)]
  {
    var b, m := SourceEllipseBox(g), EllipseMask(g, sqrt);
    if !IsEmptyBox(b) && AnyCovered(m, b) {
      BlendBoxKeepsUncovered(cv, b, m, g.alpha, g.color, y, x, c);
    }
  }

  /** Inside its bounding box, apply blends exactly the pixels the ellipse covers: with
      EllipsePaintedWithinBox this fixes every value of the painted canvas. */
  lemma EllipsePaintedInBox(g: Gene, sqrt: Sqrt, cv: seq<real>, y: int, x: int, c: int)
    requires g.Ellipse? && |cv| == CanvasSize && 0 <= c < 3
    requires InBox(SourceEllipseBox(g), y, x)
    ensures EllipsePainted(g, sqrt, cv)[CanvasIndex(y, x, c)]
         == Blend(cv[CanvasIndex(y, x, c)], g.alpha, EllipseCovers(g, sqrt, y, x), g.color[c])
  {
    var b, m := SourceEllipseBox(g), EllipseMask(g, sqrt);
    CanvasIndexParts(y, x, c);
    assert m[PixelIndex(y, x)] == EllipseCovers(g, sqrt, y, x);
    if AnyCovered(m, b) {
      BlendBoxAt(cv, b, m, g.alpha, g.color, y, x, c);
    } else {
      assert !m[PixelIndex(y, x)];
    }
  }

  /** On a white canvas, apply as written leaves pixel (x, y) = (2, 0) of BoxCounterexample
      white, although the ellipse covers it; the corrected painting blends it to
      (1 - 0.5) * 255 + 0.5 * 0. */
  lemma SourcePaintingMissesCoveredPixel(sqrt: Sqrt)
    requires sqrt(4.0) == 2.0 && sqrt(1.0) == 1.0
    ensures EllipseCovers(BoxCounterexample, sqrt, 0, 2)
    ensures EllipsePainted(BoxCounterexample, sqrt, White())[CanvasIndex(0, 2, 0)] == 255.0
    ensures CorrectedEllipsePainted(BoxCounterexample, sqrt, White())[CanvasIndex(0, 2, 0)] == 127.5
  {
    CounterexampleCovers(sqrt);
    CounterexampleSourcePainting(sqrt);
    CounterexampleCorrectedPainting(sqrt);
  }

  lemma CounterexampleSourcePainting(sqrt: Sqrt)
    ensures EllipsePainted(BoxCounterexample, sqrt, White())[CanvasIndex(0, 2, 0)] == 255.0
  {
    CanvasIndexParts(0, 2, 0);
    CounterexampleOutsideBox();
    EllipsePaintedWithinBox(BoxCounterexample, sqrt, White(), 0, 2, 0);
  }

  lemma CounterexampleCorrectedPainting(sqrt: Sqrt)
    requires sqrt(4.0) == 2.0 && sqrt(1.0) == 1.0
    ensures CorrectedEllipsePainted(BoxCounterexample, sqrt, White())[CanvasIndex(0, 2, 0)] == 127.5
  {
    var g, cv := BoxCounterexample, White();
    var b, m := EllipseBox(g), EllipseMask(g, sqrt);
    CanvasIndexParts(0, 2, 0);
    CounterexampleCovers(sqrt);
    EllipseBoxContainsEllipse(g, sqrt, 0, 2);
    assert m[PixelIndex(0, 2)];
    assert b.yMin <= 0 < b.yMax && b.xMin <= 2 < b.xMax;
    assert AnyCovered(m, b);
    assert CorrectedEllipsePainted(g, sqrt, cv) == BlendBox(cv, b, m, g.alpha, g.color);
    BlendBoxAt(cv, b, m, g.alpha, g.color, 0, 2, 0);
  }

  /** The apply of a triangle or line: the rasterised mask blended over the whole canvas. */
  function ShapePainted(g: Gene, mask: Mask, cv: seq<real>): (r: seq<real>)
    requires |cv| == CanvasSize
    ensures |r| == CanvasSize
  {
    BlendBox(cv, FullCanvas, mask, g.alpha, g.color)
  }

  /** The canvas after gene.apply(canvas), dispatched on the variant. */
  function Painted(g: Gene, sqrt: Sqrt, raster: Rasterizer, cv: seq<real>): (r: seq<real>)
    requires |cv| == CanvasSize
    ensures |r| == CanvasSize
  {
    if g.Ellipse? then EllipsePainted(g, sqrt, cv) else ShapePainted(g, raster(g), cv)
  }

  /** With exact distances and the corrected box, the bounding box and both early returns
      of apply are optimisations only: painting an ellipse blends its colour into exactly
      the pixels of the canvas that lie in it. */
  lemma {:induction false} CorrectedEllipsePaintedIsFullBlend(g: Gene, sqrt: Sqrt, cv: seq<real>)
    requires g.Ellipse? && |cv| == CanvasSize
    requires forall y, x :: InCanvas(y, x) ==> ExactDistancesAt(g, sqrt, y, x)
    ensures CorrectedEllipsePainted(g, sqrt, cv) == BlendBox(cv, FullCanvas, EllipseMask(g, sqrt), g.alpha, g.color)
  {
    var b, m := EllipseBox(g), EllipseMask(g, sqrt);
    forall y, x | InCanvas(y, x)
      ensures m[PixelIndex(y, x)] ==> InBox(b, y, x)
    {
      EllipseBoxContainsEllipse(g, sqrt, y, x);
    }
    if IsEmptyBox(b) || !AnyCovered(m, b) {
      assert !AnyCovered(m, FullCanvas);
      BlendBoxUncovered(cv, FullCanvas, m, g.alpha, g.color);
    } else {
      BlendBoxCovering(cv, b, m, g.alpha, g.color);
    }
  }

  /** Painting a gene with colour in [0, 255] and alpha in [0, 1] keeps the canvas in [0, 255]. */
  lemma PaintedInRange(g: Gene, sqrt: Sqrt, raster: Rasterizer, cv: seq<real>)
    requires |cv| == CanvasSize && InByteRange(cv) && IsByteColor(g.color) && 0.0 <= g.alpha <= 1.0
    ensures InByteRange(Painted(g, sqrt, raster, cv))
  {
    if g.Ellipse? {
      BlendBoxInRange(cv, SourceEllipseBox(g), EllipseMask(g, sqrt), g.alpha, g.color);
    } else {
      BlendBoxInRange(cv, FullCanvas, raster(g), g.alpha, g.color);
    }
  }

  // The mutable gene objects.

  /** EllipseGene: two foci, the sum of distances to them, a colour and an opacity. */
  class EllipseGene {
    var f1x: int
    var f1y: int
    var f2x: int
    var f2y: int
    var sumDistances: real
    var color: Color
    var alpha: real

    function Value(): (g: Gene)
      reads this
      ensures g.Ellipse?
    {
      Ellipse(f1x, f1y, f2x, f2y, sumDistances, color, alpha)
    }

    /** EllipseGene(): foci drawn in the canvas, then a distance sum drawn in
        [focal distance + 1, max(WIDTH, HEIGHT) * 2]. */
    constructor (d: GeneDraw, sqrt: Sqrt)
      requires d.EllipseDraw?
      ensures Value() == Drawn(d, sqrt)
    {
      f1x, f1y, f2x, f2y := d.f1x, d.f1y, d.f2x, d.f2y;
      var focalDistance := sqrt(FocalDistanceSquared(d.f1x, d.f1y, d.f2x, d.f2y) as real);
      sumDistances := Uniform(focalDistance + 1.0, MaxSumDistances, d.spread);
      color := d.color;
      alpha := d.alpha;
    }

    /** copy.deepcopy of an ellipse gene. */
    constructor Copy(source: EllipseGene)
      ensures Value() == source.Value()
    {
      f1x, f1y, f2x, f2y := source.f1x, source.f1y, source.f2x, source.f2y;
      sumDistances, color, alpha := source.sumDistances, source.color, source.alpha;
    }

    /** Moves each focus coordinate, then clips the distance sum against the focal
        distance of the NEW foci, then moves colour and alpha. */
    method Mutate(noise: Noise, sqrt: Sqrt)
      modifies this
      ensures Value() == MutatedEllipse(old(Value()), noise, sqrt)
    {
      ghost var expected := MutatedEllipse(Value(), noise, sqrt);
      f1x := ClampCoordinate(f1x, noise.position(0), Width);
      f1y := ClampCoordinate(f1y, noise.position(1), Height);
      f2x := ClampCoordinate(f2x, noise.position(2), Width);
      f2y := ClampCoordinate(f2y, noise.position(3), Height);
      var focalDistance := sqrt(FocalDistanceSquared(f1x, f1y, f2x, f2y) as real);
      assert Ellipse(f1x, f1y, f2x, f2y, expected.sumDistances, expected.color, expected.alpha) == expected;
      sumDistances := MutatedSumDistances(sumDistances, noise.size, focalDistance);
      color := MutatedColor(color, noise.color);
      alpha := MutatedAlpha(alpha, noise.alpha);
    }

    /** Blends the ellipse into the canvas within its bounding box, returning early when
        the box is empty or no pixel of it lies in the ellipse. */
    method Apply(canvas: array<real>, sqrt: Sqrt)
      requires canvas.Length == CanvasSize
      modifies canvas
      ensures canvas[..] == EllipsePainted(Value(), sqrt, old(canvas[..]))
    {
      var b := SourceEllipseBox(Value());
      if IsEmptyBox(b) {
        return;
      }
      var mask := EllipseMask(Value(), sqrt);
      if !AnyCovered(mask, b) {
        return;
      }
      BlendRegion(canvas, b, mask, alpha, color);
    }
  }

  /** TriangleGene: a list of points (three when constructed), a colour and an opacity. */
  class TriangleGene {
    var points: seq<Point>
    var color: Color
    var alpha: real

    function Value(): (g: Gene)
      reads this
      ensures g.Triangle?
    {
      Triangle(points, color, alpha)
    }

    constructor (d: GeneDraw)
      requires d.TriangleDraw?
      ensures Value() == Drawn(d, _ => 0.0)
    {
      points, color, alpha := d.points, d.color, d.alpha;
    }

    constructor Copy(source: TriangleGene)
      ensures Value() == source.Value()
    {
      points, color, alpha := source.points, source.color, source.alpha;
    }

    /** Builds the list of moved points one point at a time, then moves colour and alpha. */
    method Mutate(noise: Noise)
      modifies this
      ensures Value() == MutatedTriangle(old(Value()), noise)
    {
      var newPoints: seq<Point> := [];
      for i := 0 to |points|
        invariant |newPoints| == i
        invariant forall j :: 0 <= j < i ==> newPoints[j] == MutatedPoint(points[j], j, noise)
      {
        newPoints := newPoints + [MutatedPoint(points[i], i, noise)];
      }
      assert newPoints == MutatedPoints(points, noise);
      points := newPoints;
      color := MutatedColor(color, noise.color);
      alpha := MutatedAlpha(alpha, noise.alpha);
    }

    /** Blends the polygon's rasterised mask over the whole canvas. */
    method Apply(canvas: array<real>, raster: Rasterizer)
      requires canvas.Length == CanvasSize
      modifies canvas
      ensures canvas[..] == ShapePainted(Value(), raster(Value()), old(canvas[..]))
    {
      var mask := raster(Value());
      BlendRegion(canvas, FullCanvas, mask, alpha, color);
    }
  }

  /** LineGene: two endpoints, a stroke width, a colour and an opacity. */
  class LineGene {
    var x1: int
    var y1: int
    var x2: int
    var y2: int
    var width: int
    var color: Color
    var alpha: real

    function Value(): (g: Gene)
      reads this
      ensures g.Line?
    {
      Line(x1, y1, x2, y2, width, color, alpha)
    }

    constructor (d: GeneDraw)
      requires d.LineDraw?
      ensures Value() == Drawn(d, _ => 0.0)
    {
      x1, y1, x2, y2, width := d.x1, d.y1, d.x2, d.y2, d.width;
      color, alpha := d.color, d.alpha;
    }

    constructor Copy(source: LineGene)
      ensures Value() == source.Value()
    {
      x1, y1, x2, y2, width := source.x1, source.y1, source.x2, source.y2, source.width;
      color, alpha := source.color, source.alpha;
    }

    method Mutate(noise: Noise)
      modifies this
      ensures Value() == MutatedLine(old(Value()), noise)
    {
      x1 := ClampCoordinate(x1, noise.position(0), Width);
      y1 := ClampCoordinate(y1, noise.position(1), Height);
      x2 := ClampCoordinate(x2, noise.position(2), Width);
      y2 := ClampCoordinate(y2, noise.position(3), Height);
      width := MutatedWidth(width, noise.width);
      color := MutatedColor(color, noise.color);
      alpha := MutatedAlpha(alpha, noise.alpha);
    }

    /** Blends the stroke's rasterised mask over the whole canvas. */
    method Apply(canvas: array<real>, raster: Rasterizer)
      requires canvas.Length == CanvasSize
      modifies canvas
      ensures canvas[..] == ShapePainted(Value(), raster(Value()), old(canvas[..]))
    {
      var mask := raster(Value());
      BlendRegion(canvas, FullCanvas, mask, alpha, color);
    }
  }

  /** A reference to a gene object of any of the three classes; the dispatch Python does
      through AbstractGene. */
  datatype GeneRef = EllipseRef(ellipse: EllipseGene) | TriangleRef(triangle: TriangleGene) | LineRef(line: LineGene)
  {
    function Obj(): object {
      match this
      case EllipseRef(e) => e
      case TriangleRef(t) => t
      case LineRef(l) => l
    }

    function Value(): (g: Gene)
      reads Obj()
      ensures EllipseRef? <==> g.Ellipse?
      ensures TriangleRef? <==> g.Triangle?
      ensures LineRef? <==> g.Line?
    {
      match this
      case EllipseRef(e) => e.Value()
      case TriangleRef(t) => t.Value()
      case LineRef(l) => l.Value()
    }

    /** random.choice(GENE_CLASSES)(): a new gene of the drawn class. */
    static method New(d: GeneDraw, sqrt: Sqrt) returns (r: GeneRef)
      ensures fresh(r.Obj())
      ensures r.Value() == Drawn(d, sqrt)
    {
      if d.EllipseDraw? {
        var e := new EllipseGene(d, sqrt);
        r := EllipseRef(e);
      } else if d.TriangleDraw? {
        var t := new TriangleGene(d);
        r := TriangleRef(t);
      } else {
        var l := new LineGene(d);
        r := LineRef(l);
      }
    }

    /** copy.deepcopy(gene): a fresh object with the same value. */
    method Copy() returns (r: GeneRef)
      ensures fresh(r.Obj())
      ensures r.Value() == Value()
    {
      if EllipseRef? {
        var c := new EllipseGene.Copy(ellipse);
        r := EllipseRef(c);
      } else if TriangleRef? {
        var c := new TriangleGene.Copy(triangle);
        r := TriangleRef(c);
      } else {
        var c := new LineGene.Copy(line);
        r := LineRef(c);
      }
    }

    method Mutate(noise: Noise, sqrt: Sqrt)
      modifies Obj()
      ensures Value() == Mutated(old(Value()), noise, sqrt)
    {
      match this
      case EllipseRef(e) => e.Mutate(noise, sqrt);
      case TriangleRef(t) => t.Mutate(noise);
      case LineRef(l) => l.Mutate(noise);
    }

    method Apply(canvas: array<real>, sqrt: Sqrt, raster: Rasterizer)
      requires canvas.Length == CanvasSize
      modifies canvas
      ensures canvas[..] == Painted(Value(), sqrt, raster, old(canvas[..]))
    {
      match this
      case EllipseRef(e) => e.Apply(canvas, sqrt);
      case TriangleRef(t) => t.Apply(canvas, raster);
      case LineRef(l) => l.Apply(canvas, raster);
    }
  }
}
