/** How ParticleTitle seeds particles from a rendered glyph mask: the canvas
    height it asks for, the grid step it samples with, and the row-major list
    of grid points whose alpha byte exceeds the threshold. The mask is the
    RGBA byte array the canvas hands back; the engine's width may be
    fractional, exactly as the container's measured width is. */
module GlyphSampling {
  import opened Common

  const FontRatio: real := 0.12
  const LineHeight: real := 1.2
  const MinHeight: real := 60.0
  const MobileBreakpoint: real := 768.0
  const MobileDensityFactor: real := 1.5
  const MinStep: int := 2
  const AlphaThreshold: int := 128

  /** A grid sample point in canvas pixels. */
  datatype Point = Point(x: int, y: int)

  /** The canvas height for a container width: 1.2 times the font size
      (0.12 of the width), but never below 60. */
  function CalculateHeight(width: real): (h: real)
    ensures h >= MinHeight
    ensures h >= width * FontRatio * LineHeight
    ensures h == MinHeight || h == width * FontRatio * LineHeight
  {
    Max(width * FontRatio * LineHeight, MinHeight)
  }

  /** The bounding box of the text path drawn at the origin with baseline
      0.85 * fontSize. */
  datatype Box = Box(x1: real, y1: real, x2: real, y2: real)

  /** Where the text path is drawn on the mask canvas: the x origin and the
      baseline y of the shifted path, for a font size of 0.12 * width. */
  function Placement(width: real, height: real, box: Box): (r: (real, real))
    ensures var fontSize := width * FontRatio;
            var shift := r.1 - fontSize * 0.85;
            r.0 + (box.x1 + box.x2) / 2.0 == width / 2.0 &&
            shift + (box.y1 + box.y2) / 2.0 == height / 2.0 - (box.y2 - box.y1) * 0.05
  {
    var fontSize := width * FontRatio;
    var offsetX := (width - (box.x2 - box.x1)) / 2.0 - box.x1;
    var offsetY := (height - (box.y2 - box.y1)) / 2.0 - box.y1;
    (offsetX, fontSize * 0.85 + offsetY - (box.y2 - box.y1) * 0.05)
  }

  /** Math.round: the nearest integer, halves rounded up. */
  function Round(v: real): (r: int)
    ensures r as real - 0.5 <= v < r as real + 0.5
  {
    (v + 0.5).Floor
  }

  /** The sampling step: the configured density, scaled by 1.5 below the
      mobile breakpoint, rounded, and never below 2. */
  function SamplingStep(width: real, baseDensity: real): (step: int)
    ensures step >= MinStep
    ensures var scaled := Round(baseDensity * (if width < MobileBreakpoint then MobileDensityFactor else 1.0));
            step >= scaled && (step == MinStep || step == scaled)
  {
    var scaled := Round(baseDensity * (if width < MobileBreakpoint then MobileDensityFactor else 1.0));
    if scaled >= MinStep then scaled else MinStep
  }

  /** The default density of 4 samples every 6 pixels on a narrow canvas and
      every 4 pixels otherwise. */
  lemma DefaultStep(width: real)
    ensures SamplingStep(width, 4.0) == if width < MobileBreakpoint then 6 else 4
  {
  }

  /** Reading an array element at a JavaScript number index: an index that
      is fractional or out of range yields undefined (None here). */
  function ReadByte(data: seq<int>, idx: real): (r: Option<int>)
    ensures r.Some? <==> idx.Floor as real == idx && 0 <= idx.Floor < |data|
    ensures r.Some? ==> r.value == data[idx.Floor]
  {
    if idx.Floor as real == idx && 0 <= idx.Floor < |data| then Some(data[idx.Floor]) else None
  }

  /** y * width, written as y additions of width. */
  function RowOffset(y: nat, width: real): real {
    if y == 0 then 0.0 else RowOffset(y - 1, width) + width
  }

  lemma {:induction false} RowOffsetIsProduct(y: nat, width: real)
    ensures RowOffset(y, width) == (y as real) * width
  {
    if y > 0 {
      RowOffsetIsProduct(y - 1, width);
      assert (y as real) * width == ((y - 1) as real) * width + width;
    }
  }

  /** Index of the red byte of pixel (x, y), that is (y * width + x) * 4, in a
      row-major RGBA array whose rows are `width` pixels wide. */
  function PixelIndex(width: real, x: int, y: nat): real {
    (RowOffset(y, width) + x as real) * 4.0
  }

  /** The sampler's test: the alpha byte of (x, y) exists and exceeds 128
      (undefined > 128 is false in JavaScript). */
  predicate Covered(mask: seq<int>, width: real, x: int, y: nat) {
    var a := ReadByte(mask, PixelIndex(width, x, y) + 3.0);
    a.Some? && a.value > AlphaThreshold
  }

  /** On an integral canvas width whose mask holds all width * height pixels,
      Covered is exactly the alpha byte at (y * width + x) * 4 + 3. */
  lemma CoveredOnIntegralWidth(mask: seq<int>, w: nat, h: nat, x: int, y: int)
    requires |mask| == 4 * w * h
    requires 0 <= x < w && 0 <= y < h
    ensures 0 <= (y * w + x) * 4 + 3 < |mask|
    ensures Covered(mask, w as real, x, y) <==> mask[(y * w + x) * 4 + 3] > AlphaThreshold
  {
    var i := (y * w + x) * 4 + 3;
    AlphaInMask(w, h, x, y);
    AlphaIndexExact(w, x, y);
    ReadAtWhole(mask, i);
  }

  /** The alpha byte of a pixel inside a w by h canvas lies in its mask. */
  lemma AlphaInMask(w: nat, h: nat, x: int, y: int)
    requires 0 <= x < w && 0 <= y < h
    ensures 0 <= (y * w + x) * 4 + 3 < 4 * w * h
  {
    var n := w * h;
    assert 4 * w * h == 4 * n;
    RowsBelow(y, h - 1, w);
    assert (h - 1) * w == n - w;
  }

  /** On an integral width the real pixel index is the integer one. */
  lemma AlphaIndexExact(w: nat, x: int, y: nat)
    ensures PixelIndex(w as real, x, y) + 3.0 == ((y * w + x) * 4 + 3) as real
  {
    RowOffsetIsProduct(y, w as real);
    MulReal(y, w);
  }

  /** A whole index inside the data reads its element. */
  lemma ReadAtWhole(data: seq<int>, i: int)
    requires 0 <= i < |data|
    ensures ReadByte(data, i as real) == Some(data[i])
  {
  }

  /** An earlier row starts no later than a later one. */
  lemma RowsBelow(a: int, b: int, w: int)
    requires a <= b && w >= 0
    ensures a * w <= b * w
  {
  }

  lemma MulReal(a: int, b: int)
    ensures (a * b) as real == (a as real) * (b as real)
  {
  }

  /** A point the two nested sampling loops visit: both coordinates are
      non-negative multiples of the step and lie inside the canvas. */
  predicate OnGrid(step: int, width: real, height: real, p: Point) {
    step > 0 && p.x >= 0 && p.y >= 0 && p.x % step == 0 && p.y % step == 0 &&
    (p.x as real) < width && (p.y as real) < height
  }

  /** The sampler's test as a function of the grid point. */
  function CoverTest(mask: seq<int>, width: real): (int, nat) -> bool {
    (x: int, y: nat) => Covered(mask, width, x, y)
  }

  /** A grid point that becomes a particle under the coverage test. */
  predicate Hit(covered: (int, nat) -> bool, width: real, height: real, step: int, p: Point) {
    OnGrid(step, width, height, p) && covered(p.x, p.y)
  }

  /** Row-major order: by y, then by x. */
  predicate Before(p: Point, q: Point) {
    p.y < q.y || (p.y == q.y && p.x < q.x)
  }

  predicate RowMajor(ps: seq<Point>) {
    forall i, j :: 0 <= i < j < |ps| ==> Before(ps[i], ps[j])
  }

  /** The covered points the inner loop finds on row y, from column x on. */
  function RowHits(covered: (int, nat) -> bool, width: real, step: int, y: nat, x: int): seq<Point>
    requires step > 0 && x >= 0
    decreases width.Floor - x
  {
    if (x as real) >= width then []
    else (if covered(x, y) then [Point(x, y)] else []) + RowHits(covered, width, step, y, x + step)
  }

  /** The covered points the two loops find from row y on, in the order they
      are found. GridHits(covered, width, height, step, 0) is the whole sample. */
  function GridHits(covered: (int, nat) -> bool, width: real, height: real, step: int, y: int): seq<Point>
    requires step > 0 && y >= 0
    decreases height.Floor - y
  {
    if (y as real) >= height then []
    else RowHits(covered, width, step, y, 0) + GridHits(covered, width, height, step, y + step)
  }

  lemma MulGe(k: int, s: int)
    requires k >= 1 && s > 0
    ensures k * s >= s
  {
  }

  /** A multiple of a positive s that lies in [0, s) is zero. */
  lemma MulSmallIsZero(k: int, s: int)
    requires s > 0 && 0 <= k * s < s
    ensures k == 0
  {
  }

  lemma MulLe(k: int, s: int)
    requires k <= -1 && s > 0
    ensures k * s <= -s
  {
  }

  /** The next grid line after a multiple of the step is a multiple too. */
  lemma ModStep(v: int, step: int)
    requires step > 0 && v % step == 0
    ensures (v + step) % step == 0
  {
    var q, q2, r2 := v / step, (v + step) / step, (v + step) % step;
    assert v == q * step;
    assert v + step == q2 * step + r2;
    assert r2 == (q + 1 - q2) * step;
    MulSmallIsZero(q + 1 - q2, step);
  }

  /** Soundness and order of one row: every point found lies on row y, at a
      grid column from x on, inside the canvas, and is covered; the points
      come in increasing x. */
  lemma {:induction false} RowHitsSound(covered: (int, nat) -> bool, width: real, height: real, step: int, y: int, x: int)
    requires step > 0 && x >= 0 && x % step == 0
    requires y >= 0 && y % step == 0 && (y as real) < height
    ensures var r := RowHits(covered, width, step, y, x);
            RowMajor(r) &&
            forall p :: p in r ==> Hit(covered, width, height, step, p) && p.y == y && p.x >= x
    decreases width.Floor - x
  {
    if (x as real) < width {
      ModStep(x, step);
      RowHitsSound(covered, width, height, step, y, x + step);
    }
  }

  /** Completeness of one row: every covered grid column from x on is found. */
  lemma {:induction false} RowHitsComplete(covered: (int, nat) -> bool, width: real, step: int, y: nat, x: int, c: int)
    requires step > 0 && x >= 0 && x % step == 0
    requires x <= c && c % step == 0 && (c as real) < width && covered(c, y)
    ensures Point(c, y) in RowHits(covered, width, step, y, x)
    decreases width.Floor - x
  {
    if c != x {
      ModStep(x, step);
      GridGap(x, c, step);
      RowHitsComplete(covered, width, step, y, x + step, c);
    }
  }

  /** Two distinct multiples of the step are at least a step apart. */
  lemma GridGap(a: int, b: int, step: int)
    requires step > 0 && a % step == 0 && b % step == 0 && a < b
    ensures a + step <= b
  {
    var qa, qb := a / step, b / step;
    assert a == qa * step && b == qb * step;
    var k := qb - qa;
    assert b - a == k * step;
    assert k >= 1 by {
      if k <= -1 {
        MulLe(k, step);
      }
    }
    MulGe(k, step);
  }

  /** Soundness and row-major order of the whole sample from row y on. */
  lemma {:induction false} GridHitsSound(covered: (int, nat) -> bool, width: real, height: real, step: int, y: int)
    requires step > 0 && y >= 0 && y % step == 0
    ensures var r := GridHits(covered, width, height, step, y);
            RowMajor(r) &&
            forall p :: p in r ==> Hit(covered, width, height, step, p) && p.y >= y
    decreases height.Floor - y
  {
    if (y as real) < height {
      ModStep(y, step);
      var row := RowHits(covered, width, step, y, 0);
      var rest := GridHits(covered, width, height, step, y + step);
      RowHitsSound(covered, width, height, step, y, 0);
      GridHitsSound(covered, width, height, step, y + step);
      var r := row + rest;
      forall i, j | 0 <= i < j < |r| ensures Before(r[i], r[j]) {
        if j < |row| {
        } else if i >= |row| {
          assert r[i] == rest[i - |row|] && r[j] == rest[j - |row|];
        } else {
          assert r[i] in row && r[j] in rest;
        }
      }
      forall p | p in r ensures Hit(covered, width, height, step, p) && p.y >= y {
        if p in row { } else { assert p in rest; }
      }
    }
  }

  /** Completeness of the whole sample from row y on. */
  lemma {:induction false} GridHitsComplete(covered: (int, nat) -> bool, width: real, height: real, step: int, y: int, p: Point)
    requires step > 0 && y >= 0 && y % step == 0
    requires Hit(covered, width, height, step, p) && p.y >= y
    ensures p in GridHits(covered, width, height, step, y)
    decreases height.Floor - y
  {
    if p.y == y {
      RowHitsComplete(covered, width, step, y, 0, p.x);
    } else {
      ModStep(y, step);
      GridGap(y, p.y, step);
      GridHitsComplete(covered, width, height, step, y + step, p);
    }
  }

  /** The sampler is exact: a point is among the seeds if and only if it is
      a covered grid point, every such point is seeded exactly once, and the
      seeds come out in row-major order. Nothing here depends on a random
      draw, so the number of particles depends on the test and the step only. */
  lemma SampleIsExact(covered: (int, nat) -> bool, width: real, height: real, step: int)
    requires step > 0
    ensures var r := GridHits(covered, width, height, step, 0);
            RowMajor(r) &&
            (forall p :: p in r <==> Hit(covered, width, height, step, p)) &&
            (forall i, j :: 0 <= i < j < |r| ==> r[i] != r[j])
  {
    var r := GridHits(covered, width, height, step, 0);
    GridHitsSound(covered, width, height, step, 0);
    forall p | Hit(covered, width, height, step, p) ensures p in r {
      GridHitsComplete(covered, width, height, step, 0, p);
    }
  }
}
