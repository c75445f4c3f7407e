/** The RGB canvas shared by every gene's apply: a row-major Height x Width x 3 buffer of
    reals (numpy's float32 layout), the alpha-compositing formula, numpy's clip and the
    final uint8 quantisation. */
module Canvas {
  import opened Config

  const PixelCount: nat := Width * Height
  const CanvasSize: nat := PixelCount * 3

  /** An RGB colour, numpy's three-element float array. */
  type Color = c: seq<real> | |c| == 3 witness [0.0, 0.0, 0.0]

  /** A shape's coverage mask over the whole canvas, one flag per pixel, row-major. */
  type Mask = m: seq<bool> | |m| == PixelCount witness seq(PixelCount, _ => false)

  predicate InCanvas(y: int, x: int) {
    0 <= y < Height && 0 <= x < Width
  }

  function PixelIndex(y: int, x: int): int {
    y * Width + x
  }

  /** Position of channel c of pixel (y, x) in the flat buffer. */
  function CanvasIndex(y: int, x: int, c: int): int {
    PixelIndex(y, x) * 3 + c
  }

  function RowOf(k: int): int { k / 3 / Width }
  function ColOf(k: int): int { k / 3 % Width }
  function ChannelOf(k: int): int { k % 3 }

  lemma CanvasIndexParts(y: int, x: int, c: int)
    requires InCanvas(y, x) && 0 <= c < 3
    ensures 0 <= PixelIndex(y, x) < PixelCount
    ensures 0 <= CanvasIndex(y, x, c) < CanvasSize
    ensures RowOf(CanvasIndex(y, x, c)) == y && ColOf(CanvasIndex(y, x, c)) == x
    ensures ChannelOf(CanvasIndex(y, x, c)) == c
  {
    var k := CanvasIndex(y, x, c);
    assert k / 3 == PixelIndex(y, x);
  }

  lemma CanvasIndexOf(k: int)
    requires 0 <= k < CanvasSize
    ensures InCanvas(RowOf(k), ColOf(k)) && 0 <= ChannelOf(k) < 3
    ensures CanvasIndex(RowOf(k), ColOf(k), ChannelOf(k)) == k
  {
  }

  /** Two canvases agree when they agree at every pixel and channel. */
  lemma CanvasExtensional(a: seq<real>, b: seq<real>)
    requires |a| == CanvasSize && |b| == CanvasSize
    requires forall y, x, c :: InCanvas(y, x) && 0 <= c < 3 ==> a[CanvasIndex(y, x, c)] == b[CanvasIndex(y, x, c)]
    ensures a == b
  {
    forall k | 0 <= k < CanvasSize
      ensures a[k] == b[k]
    {
      CanvasIndexOf(k);
    }
  }

  function Min(a: int, b: int): int { if a <= b then a else b }
  function Max(a: int, b: int): int { if a >= b then a else b }

  /** numpy's clip, minimum(maximum(v, lo), hi): the upper bound wins when lo > hi. */
  function Clip(v: real, lo: real, hi: real): (r: real)
    ensures r <= hi
    ensures lo <= hi ==> lo <= r
    ensures lo <= v <= hi ==> r == v
    ensures v < lo <= hi ==> r == lo
    ensures hi < v ==> r == hi
  {
    var raised := if v >= lo then v else lo;
    if raised <= hi then raised else hi
  }

  /** Python's int() on a float: truncation toward zero. */
  function Trunc(v: real): (i: int)
    ensures v >= 0.0 ==> i == v.Floor
    ensures v < 0.0 ==> v <= i as real <= 0.0 && i as real < v + 1.0
  {
    if v >= 0.0 then v.Floor else -((-v).Floor)
  }

  /** int(np.clip(v + noise, 0, bound - 1)): a coordinate moved by noise and clamped back
      into [0, bound - 1]; the clipped value is non-negative, so int() is the floor. */
  function ClampCoordinate(v: int, noise: real, bound: nat): (r: int)
    requires bound > 0
    ensures 0 <= r < bound
    ensures 0.0 <= v as real + noise <= (bound - 1) as real ==> r == (v as real + noise).Floor
    ensures v as real + noise < 0.0 ==> r == 0
    ensures v as real + noise > (bound - 1) as real ==> r == bound - 1
  {
    Trunc(Clip(v as real + noise, 0.0, (bound - 1) as real))
  }

  /** Coverage of a pixel as numpy sees it after astype(float32): 1.0 inside, 0.0 outside. */
  function Coverage(m: bool): real {
    if m then 1.0 else 0.0
  }

  /** The compositing formula of every apply: (1 - alpha*mask)*old + alpha*mask*color. */
  function Blend(prior: real, alpha: real, m: bool, color: real): (r: real)
    ensures !m ==> r == prior
    ensures m ==> r == (1.0 - alpha) * prior + alpha * color
  {
    (1.0 - alpha * Coverage(m)) * prior + alpha * Coverage(m) * color
  }

  /** With the prior value and colour in [0,255] and alpha in [0,1], a blend stays in [0,255]. */
  lemma BlendInRange(prior: real, alpha: real, m: bool, color: real)
    requires 0.0 <= prior <= 255.0 && 0.0 <= color <= 255.0 && 0.0 <= alpha <= 1.0
    ensures 0.0 <= Blend(prior, alpha, m, color) <= 255.0
  {
    if m {
      ProductNonNegative(1.0 - alpha, 255.0 - prior);
      ProductNonNegative(alpha, 255.0 - color);
      ProductNonNegative(1.0 - alpha, prior);
      ProductNonNegative(alpha, color);
    }
  }

  lemma ProductNonNegative(a: real, b: real)
    requires a >= 0.0 && b >= 0.0
    ensures a * b >= 0.0
  {
  }

  /** A rectangle of rows [yMin, yMax) and columns [xMin, xMax). */
  datatype Box = Box(yMin: int, yMax: int, xMin: int, xMax: int)

  predicate InBox(b: Box, y: int, x: int) {
    b.yMin <= y < b.yMax && b.xMin <= x < b.xMax
  }

  predicate IsEmptyBox(b: Box) {
    b.xMin >= b.xMax || b.yMin >= b.yMax
  }

  predicate WithinCanvas(b: Box) {
    0 <= b.yMin && b.yMax <= Height && 0 <= b.xMin && b.xMax <= Width
  }

  const FullCanvas: Box := Box(0, Height, 0, Width)

  /** Whether some pixel of the box is covered by the mask (np.any over the region). */
  predicate AnyCovered(mask: Mask, b: Box)
    requires WithinCanvas(b)
  {
    exists y, x | b.yMin <= y < b.yMax && b.xMin <= x < b.xMax :: mask[PixelIndex(y, x)]
  }

  /** The canvas after blending colour into the pixels of box b that the mask covers. */
  function BlendBox(cv: seq<real>, b: Box, mask: Mask, alpha: real, color: Color): (r: seq<real>)
    requires |cv| == CanvasSize
    ensures |r| == CanvasSize
  {
    seq(CanvasSize, k requires 0 <= k < CanvasSize =>
      if InBox(b, RowOf(k), ColOf(k)) then Blend(cv[k], alpha, mask[k / 3], color[ChannelOf(k)]) else cv[k])
  }

  /** BlendBox at pixel (y, x), channel c. */
  lemma BlendBoxAt(cv: seq<real>, b: Box, mask: Mask, alpha: real, color: Color, y: int, x: int, c: int)
    requires |cv| == CanvasSize && InCanvas(y, x) && 0 <= c < 3
    ensures BlendBox(cv, b, mask, alpha, color)[CanvasIndex(y, x, c)] ==
            if InBox(b, y, x) then Blend(cv[CanvasIndex(y, x, c)], alpha, mask[PixelIndex(y, x)], color[c])
            else cv[CanvasIndex(y, x, c)]
  {
    CanvasIndexParts(y, x, c);
  }

  /** Pixels outside the box, or not covered by the mask, keep their value. */
  lemma BlendBoxKeepsUncovered(cv: seq<real>, b: Box, mask: Mask, alpha: real, color: Color, y: int, x: int, c: int)
    requires |cv| == CanvasSize && InCanvas(y, x) && 0 <= c < 3
    requires !InBox(b, y, x) || !mask[PixelIndex(y, x)]
    ensures BlendBox(cv, b, mask, alpha, color)[CanvasIndex(y, x, c)] == cv[CanvasIndex(y, x, c)]
  {
    BlendBoxAt(cv, b, mask, alpha, color, y, x, c);
  }

  /** When the mask covers no pixel of the box, blending changes nothing: the early
      return of the ellipse's apply is a shortcut, not a different result. */
  lemma {:induction false} BlendBoxUncovered(cv: seq<real>, b: Box, mask: Mask, alpha: real, color: Color)
    requires |cv| == CanvasSize && WithinCanvas(b) && !AnyCovered(mask, b)
    ensures BlendBox(cv, b, mask, alpha, color) == cv
  {
    var r := BlendBox(cv, b, mask, alpha, color);
    forall y, x, c | InCanvas(y, x) && 0 <= c < 3
      ensures r[CanvasIndex(y, x, c)] == cv[CanvasIndex(y, x, c)]
    {
      BlendBoxAt(cv, b, mask, alpha, color, y, x, c);
    }
    CanvasExtensional(r, cv);
  }

  /** When every covered pixel lies in box b, blending over b is blending over the whole
      canvas: the box is only a way to visit fewer pixels. */
  lemma {:induction false} BlendBoxCovering(cv: seq<real>, b: Box, mask: Mask, alpha: real, color: Color)
    requires |cv| == CanvasSize
    requires forall y, x :: InCanvas(y, x) && mask[PixelIndex(y, x)] ==> InBox(b, y, x)
    ensures BlendBox(cv, b, mask, alpha, color) == BlendBox(cv, FullCanvas, mask, alpha, color)
  {
    var r, full := BlendBox(cv, b, mask, alpha, color), BlendBox(cv, FullCanvas, mask, alpha, color);
    forall y, x, c | InCanvas(y, x) && 0 <= c < 3
      ensures r[CanvasIndex(y, x, c)] == full[CanvasIndex(y, x, c)]
    {
      BlendBoxAt(cv, b, mask, alpha, color, y, x, c);
      BlendBoxAt(cv, FullCanvas, mask, alpha, color, y, x, c);
    }
    CanvasExtensional(r, full);
  }

  predicate InByteRange(cv: seq<real>) {
    forall k :: 0 <= k < |cv| ==> 0.0 <= cv[k] <= 255.0
  }

  predicate IsByteColor(color: Color) {
    forall c :: 0 <= c < 3 ==> 0.0 <= color[c] <= 255.0
  }

  /** Blending an in-range colour with alpha in [0,1] keeps every value of the canvas in [0,255]. */
  lemma BlendBoxInRange(cv: seq<real>, b: Box, mask: Mask, alpha: real, color: Color)
    requires |cv| == CanvasSize && InByteRange(cv) && IsByteColor(color) && 0.0 <= alpha <= 1.0
    ensures InByteRange(BlendBox(cv, b, mask, alpha, color))
  {
    var r := BlendBox(cv, b, mask, alpha, color);
    forall k | 0 <= k < CanvasSize
      ensures 0.0 <= r[k] <= 255.0
    {
      BlendInRange(cv[k], alpha, mask[k / 3], color[ChannelOf(k)]);
    }
  }

  /** The canvas render_numpy starts from: solid white. */
  function White(): (cv: seq<real>)
    ensures |cv| == CanvasSize && InByteRange(cv)
    ensures forall k :: 0 <= k < CanvasSize ==> cv[k] == 255.0
  {
    seq(CanvasSize, _ => 255.0)
  }

  /** np.clip(canvas, 0, 255).astype(np.uint8): clip, then truncate the non-negative value. */
  function Quantize(cv: seq<real>): (img: seq<int>)
    ensures |img| == |cv|
    ensures forall k :: 0 <= k < |img| ==> 0 <= img[k] <= 255
    ensures forall k :: 0 <= k < |img| && 0.0 <= cv[k] <= 255.0 ==> img[k] == cv[k].Floor
  {
    seq(|cv|, k requires 0 <= k < |cv| => Clip(cv[k], 0.0, 255.0).Floor)
  }

  /** Blends colour into the pixels of box b that the mask covers, channel by channel, as
      `canvas[y_min:y_max, x_min:x_max, c] = (1 - alpha*mask)*roi + alpha*mask*color[c]`. */
  method BlendRegion(canvas: array<real>, b: Box, mask: Mask, alpha: real, color: Color)
    requires canvas.Length == CanvasSize && WithinCanvas(b)
    modifies canvas
    ensures canvas[..] == BlendBox(old(canvas[..]), b, mask, alpha, color)
    ensures forall y, x, c :: InCanvas(y, x) && 0 <= c < 3 && !InBox(b, y, x) ==>
              canvas[CanvasIndex(y, x, c)] == old(canvas[CanvasIndex(y, x, c)])
  {
    ghost var before := canvas[..];
    for c := 0 to 3
      invariant forall yy, xx, cc :: InCanvas(yy, xx) && 0 <= cc < 3 ==>
        canvas[CanvasIndex(yy, xx, cc)] ==
          if cc < c && InBox(b, yy, xx)
          then Blend(before[CanvasIndex(yy, xx, cc)], alpha, mask[PixelIndex(yy, xx)], color[cc])
          else before[CanvasIndex(yy, xx, cc)]
    {
      for y := b.yMin to if b.yMin <= b.yMax then b.yMax else b.yMin
        invariant forall yy, xx, cc :: InCanvas(yy, xx) && 0 <= cc < 3 ==>
          canvas[CanvasIndex(yy, xx, cc)] ==
            if (cc < c || (cc == c && yy < y)) && InBox(b, yy, xx)
            then Blend(before[CanvasIndex(yy, xx, cc)], alpha, mask[PixelIndex(yy, xx)], color[cc])
            else before[CanvasIndex(yy, xx, cc)]
      {
        for x := b.xMin to if b.xMin <= b.xMax then b.xMax else b.xMin
          invariant forall yy, xx, cc :: InCanvas(yy, xx) && 0 <= cc < 3 ==>
            canvas[CanvasIndex(yy, xx, cc)] ==
              if (cc < c || (cc == c && (yy < y || (yy == y && xx < x)))) && InBox(b, yy, xx)
              then Blend(before[CanvasIndex(yy, xx, cc)], alpha, mask[PixelIndex(yy, xx)], color[cc])
              else before[CanvasIndex(yy, xx, cc)]
        {
          CanvasIndexParts(y, x, c);
          var k := CanvasIndex(y, x, c);
          canvas[k] := Blend(canvas[k], alpha, mask[PixelIndex(y, x)], color[c]);
        }
      }
    }
    var after := BlendBox(before, b, mask, alpha, color);
    forall y, x, c | InCanvas(y, x) && 0 <= c < 3
      ensures canvas[..][CanvasIndex(y, x, c)] == after[CanvasIndex(y, x, c)]
    {
      CanvasIndexParts(y, x, c);
      BlendBoxAt(before, b, mask, alpha, color, y, x, c);
    }
    CanvasExtensional(canvas[..], after);
  }
}
