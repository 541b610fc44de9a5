/** The array kernels of desimage/images.py.

    `rebin`, `boost` and `bytescale` are pure array expressions and are modelled as
    functions on `Grid` values. `_get_max_image`, `_fix_hard_satur`, `_fix_rgb_satur`
    and `get_color_image` update numpy arrays in place; they are methods over `array2`,
    each proved against a specification function on `Grid` values (`MaxImage`,
    `HardSatur`, `RgbSatur`, `ColorImage`), and the properties the source promises are
    lemmas about those functions.

    Pixel values are `real`: float32 rounding is not modelled, and `arcsinh` is a
    parameter about which nothing is assumed unless a lemma says so. */
module Images {
  import opened Common
  import opened Grids

  // ===========================================================================
  // rebin: block averaging

  /** Sum of a sequence of pixel values. */
  function Sum(s: seq<real>): real {
    if s == [] then 0.0 else Sum(s[..|s| - 1]) + s[|s| - 1]
  }

  /** Sum over the first `n` rows of the block of width `f` whose corner is (r0, c0). */
  function BlockRows(im: Grid<real>, r0: nat, c0: nat, f: nat, n: nat): real
    requires im.Valid() && r0 + n <= im.rows && c0 + f <= im.cols
  {
    if n == 0 then 0.0 else BlockRows(im, r0, c0, f, n - 1) + Sum(im.px[r0 + n - 1][c0..c0 + f])
  }

  /** A positive multiple of `f` is at least `f`, a negative one at most `-f`. */
  lemma {:induction false} MulSign(a: int, f: int)
    requires f > 0
    ensures a >= 1 ==> a * f >= f
    ensures a <= -1 ==> a * f <= -f
    decreases if a < 0 then -a else a
  {
    if a > 1 {
      MulSign(a - 1, f);
      assert a * f == (a - 1) * f + f;
    } else if a < -1 {
      MulSign(a + 1, f);
      assert a * f == (a + 1) * f - f;
    }
  }

  lemma BlockInBounds(i: nat, q: nat, f: nat)
    requires i < q && f > 0
    ensures i * f + f <= q * f
  {
    MulSign(q - i, f);
    assert (q - i) * f == q * f - i * f;
  }

  /** The mean of the `f`×`f` block that becomes output pixel (i, j). */
  function BlockMean(im: Grid<real>, f: nat, i: nat, j: nat): real
    requires im.Valid() && f > 0 && im.rows % f == 0 && im.cols % f == 0
    requires i < im.rows / f && j < im.cols / f
  {
    BlockInBounds(i, im.rows / f, f);
    BlockInBounds(j, im.cols / f, f);
    BlockRows(im, i * f, j * f, f, f) / (f * f) as real
  }

  /** `images.rebin`: the shape must be divisible by the factor; each output pixel
      is the mean of one `factor`×`factor` block. */
  function Rebin(im: Grid<real>, factor: int): (r: Result<Grid<real>>)
    requires im.Valid()
    ensures factor == 0 ==> r == Err(ZeroDivision)
    ensures factor != 0 && (im.rows % factor != 0 || im.cols % factor != 0) ==> r == Err(NotDivisible)
    ensures factor < 0 && im.rows % factor == 0 && im.cols % factor == 0 ==> r == Err(BadShape)
    ensures factor > 0 && im.rows % factor == 0 && im.cols % factor == 0 ==>
      r.Ok? && r.value.Valid() && r.value.rows * factor == im.rows && r.value.cols * factor == im.cols
  {
    if factor == 0 then Err(ZeroDivision)
    else if im.rows % factor != 0 || im.cols % factor != 0 then Err(NotDivisible)
    else if factor < 0 then Err(BadShape)
    else Ok(Build(im.rows / factor, im.cols / factor,
      (i: nat, j: nat) requires i < im.rows / factor && j < im.cols / factor =>
        BlockMean(im, factor, i, j)))
  }

  lemma {:induction false} SumConst(s: seq<real>, v: real)
    requires forall k :: 0 <= k < |s| ==> s[k] == v
    ensures Sum(s) == |s| as real * v
  {
    if s != [] {
      SumConst(s[..|s| - 1], v);
    }
  }

  lemma {:induction false} BlockRowsConst(im: Grid<real>, r0: nat, c0: nat, f: nat, n: nat, w: real)
    requires im.Valid() && r0 + n <= im.rows && c0 + f <= im.cols
    requires forall p :: r0 <= p < r0 + n ==> Sum(im.px[p][c0..c0 + f]) == w
    ensures BlockRows(im, r0, c0, f, n) == n as real * w
  {
    if n > 0 {
      BlockRowsConst(im, r0, c0, f, n - 1, w);
      RowsArith(BlockRows(im, r0, c0, f, n - 1), Sum(im.px[r0 + n - 1][c0..c0 + f]), n, w);
    }
  }

  lemma RowSumConst(im: Grid<real>, p: nat, c0: nat, f: nat, v: real)
    requires im.Valid() && p < im.rows && c0 + f <= im.cols
    requires forall q :: c0 <= q < c0 + f ==> im.px[p][q] == v
    ensures Sum(im.px[p][c0..c0 + f]) == f as real * v
  {
    var row := im.px[p][c0..c0 + f];
    forall k | 0 <= k < |row|
      ensures row[k] == v
    {
      assert row[k] == im.px[p][c0 + k];
    }
    SumConst(row, v);
  }

  lemma RowsArith(x: real, y: real, n: nat, w: real)
    requires n > 0 && x == (n - 1) as real * w && y == w
    ensures x + y == n as real * w
  {
  }

  /** A block of `f`·`f` pixels equal to `v` sums to `f`·`f`·`v`. */
  lemma BlockSumConst(im: Grid<real>, r0: nat, c0: nat, f: nat, v: real)
    requires im.Valid() && r0 + f <= im.rows && c0 + f <= im.cols
    requires forall p, q :: r0 <= p < r0 + f && c0 <= q < c0 + f && p < im.rows && q < im.cols ==>
      im.px[p][q] == v
    ensures BlockRows(im, r0, c0, f, f) == f as real * (f as real * v)
  {
    forall p | r0 <= p < r0 + f
      ensures Sum(im.px[p][c0..c0 + f]) == f as real * v
    {
      RowSumConst(im, p, c0, f, v);
    }
    BlockRowsConst(im, r0, c0, f, f, f as real * v);
  }

  /** A block whose pixels all equal `v` averages to `v`. */
  lemma BlockMeanConst(im: Grid<real>, f: nat, i: nat, j: nat, v: real)
    requires im.Valid() && f > 0 && im.rows % f == 0 && im.cols % f == 0
    requires i < im.rows / f && j < im.cols / f
    requires forall p, q :: i * f <= p < i * f + f && j * f <= q < j * f + f && p < im.rows && q < im.cols ==>
      im.px[p][q] == v
    ensures BlockMean(im, f, i, j) == v
  {
    BlockInBounds(i, im.rows / f, f);
    BlockInBounds(j, im.cols / f, f);
    BlockSumConst(im, i * f, j * f, f, v);
    var total := BlockRows(im, i * f, j * f, f, f);
    assert BlockMean(im, f, i, j) == total / (f * f) as real;
    MeanArith(total, f, v);
  }

  /** The sum of `f`·`f` copies of `v`, divided by their number, is `v`. */
  lemma MeanArith(total: real, f: nat, v: real)
    requires f > 0 && total == f as real * (f as real * v)
    ensures total / (f * f) as real == v
  {
    var x := f as real;
    assert (f * f) as real == x * x > 0.0;
    assert total == (x * x) * v;
  }

  /** Rebinning an image of one uniform value gives the same uniform value. */
  lemma RebinUniform(im: Grid<real>, factor: int, v: real)
    requires im.Valid() && factor > 0 && im.rows % factor == 0 && im.cols % factor == 0
    requires forall p, q :: 0 <= p < im.rows && 0 <= q < im.cols ==> im.px[p][q] == v
    ensures Rebin(im, factor).Ok?
    ensures forall i, j :: 0 <= i < im.rows / factor && 0 <= j < im.cols / factor ==>
      Rebin(im, factor).value.px[i][j] == v
  {
    forall i, j | 0 <= i < im.rows / factor && 0 <= j < im.cols / factor
      ensures Rebin(im, factor).value.px[i][j] == v
    {
      BlockInBounds(i, im.rows / factor, factor);
      BlockInBounds(j, im.cols / factor, factor);
      BlockMeanConst(im, factor, i, j, v);
    }
  }

  // ===========================================================================
  // boost: duplicate-upsampling

  lemma DivBlock(i: int, k: int, f: int)
    requires f > 0 && 0 <= k < f
    ensures (i * f + k) / f == i
  {
    var n := i * f + k;
    var q := n / f;
    assert n == q * f + n % f;
    assert (i - q) * f == n % f - k;
    MulSign(i - q, f);
  }

  lemma DivBelow(p: nat, q: nat, f: nat)
    requires f > 0 && p < q * f
    ensures p / f < q
  {
    MulSign(p / f - q, f);
    assert p == (p / f) * f + p % f;
    assert (p / f - q) * f == (p / f) * f - q * f;
  }

  /** The input pixel that output pixel (p, q) duplicates: `a[p div f][q div f]`. */
  function Dup(a: Grid<real>, f: nat, p: nat, q: nat): real
    requires a.Valid() && f > 0 && p < a.rows * f && q < a.cols * f
  {
    DivBelow(p, a.rows, f);
    DivBelow(q, a.cols, f);
    a.px[p / f][q / f]
  }

  /** `images.boost`: a factor below one is refused; an image with a zero-size dimension
      gives the grid step 0/0, which is NaN, and building the index grid fails; otherwise
      the shape grows by `factor` in both dimensions. */
  function Boost(a: Grid<real>, factor: int): (r: Result<Grid<real>>)
    requires a.Valid()
    ensures factor < 1 ==> r == Err(BadFactor)
    ensures factor >= 1 && (a.rows == 0 || a.cols == 0) ==> r == Err(NanStep)
    ensures factor >= 1 && a.rows > 0 && a.cols > 0 ==>
      r.Ok? && r.value.Valid() && r.value.rows == a.rows * factor && r.value.cols == a.cols * factor
  {
    if factor < 1 then Err(BadFactor)
    else if a.rows == 0 || a.cols == 0 then Err(NanStep)
    else Ok(Build(a.rows * factor, a.cols * factor,
      (p: nat, q: nat) requires p < a.rows * factor && q < a.cols * factor => Dup(a, factor, p, q)))
  }

  /** Every `factor`×`factor` block of a boosted image repeats one input pixel. */
  lemma BoostBlocks(a: Grid<real>, factor: int, i: nat, j: nat, di: nat, dj: nat)
    requires a.Valid() && factor >= 1 && a.rows > 0 && a.cols > 0
    requires i < a.rows && j < a.cols && di < factor && dj < factor
    ensures i * factor + di < a.rows * factor && j * factor + dj < a.cols * factor
    ensures Boost(a, factor).value.px[i * factor + di][j * factor + dj] == a.px[i][j]
  {
    BlockInBounds(i, a.rows, factor);
    BlockInBounds(j, a.cols, factor);
    DivBlock(i, di, factor);
    DivBlock(j, dj, factor);
  }

  /** Rebinning by the factor one boosted by undoes the boost. */
  lemma RebinBoost(a: Grid<real>, factor: int)
    requires a.Valid() && factor >= 1 && a.rows > 0 && a.cols > 0
    ensures Rebin(Boost(a, factor).value, factor) == Ok(a)
  {
    var big := Boost(a, factor).value;
    BoostShape(a, factor);
    var small := Rebin(big, factor).value;
    forall i, j | 0 <= i < a.rows && 0 <= j < a.cols
      ensures small.px[i][j] == a.px[i][j]
    {
      BoostedBlockMean(a, factor, i, j);
    }
    Ext(small, a);
  }

  lemma BoostShape(a: Grid<real>, factor: int)
    requires a.Valid() && factor >= 1 && a.rows > 0 && a.cols > 0
    ensures var big := Boost(a, factor).value;
      big.rows % factor == 0 && big.rows / factor == a.rows &&
      big.cols % factor == 0 && big.cols / factor == a.cols
  {
    DivBlock(a.rows, 0, factor);
    DivBlock(a.cols, 0, factor);
  }

  lemma BoostedBlockMean(a: Grid<real>, factor: int, i: nat, j: nat)
    requires a.Valid() && factor >= 1 && a.rows > 0 && a.cols > 0 && i < a.rows && j < a.cols
    ensures var big := Boost(a, factor).value;
      big.rows % factor == 0 && big.cols % factor == 0 && i < big.rows / factor && j < big.cols / factor &&
      BlockMean(big, factor, i, j) == a.px[i][j]
  {
    var big := Boost(a, factor).value;
    BoostShape(a, factor);
    BoostBlockUniform(a, factor, i, j);
    BlockMeanConst(big, factor, i, j, a.px[i][j]);
  }

  lemma BoostBlockUniform(a: Grid<real>, factor: int, i: nat, j: nat)
    requires a.Valid() && factor >= 1 && a.rows > 0 && a.cols > 0 && i < a.rows && j < a.cols
    ensures var big := Boost(a, factor).value;
      forall p, q ::
        (i * factor <= p < i * factor + factor && j * factor <= q < j * factor + factor &&
         p < big.rows && q < big.cols) ==> big.px[p][q] == a.px[i][j]
  {
    var big := Boost(a, factor).value;
    forall p, q | i * factor <= p < i * factor + factor && j * factor <= q < j * factor + factor &&
        p < big.rows && q < big.cols
      ensures big.px[p][q] == a.px[i][j]
    {
      BoostBlocks(a, factor, i, j, p - i * factor, q - j * factor);
    }
  }

  // ===========================================================================
  // bytescale

  /** `(x*255).astype('u1')` for `x` in [0, 1]: truncation toward zero of `x`·255. */
  function ByteScale(x: real): (v: int)
    requires 0.0 <= x <= 1.0
    ensures 0 <= v <= 255
    ensures v as real <= x * 255.0 < v as real + 1.0
  {
    (x * 255.0).Floor
  }

  predicate InUnitRange(c: Grid<Rgb<real>>)
    requires c.Valid()
  {
    forall i, j :: 0 <= i < c.rows && 0 <= j < c.cols ==>
      0.0 <= c.px[i][j].r <= 1.0 && 0.0 <= c.px[i][j].g <= 1.0 && 0.0 <= c.px[i][j].b <= 1.0
  }

  /** The all-white colour image of a given shape. */
  function White(rows: nat, cols: nat): (w: Grid<Rgb<real>>)
    ensures w.Valid() && w.rows == rows && w.cols == cols
    ensures forall i, j :: 0 <= i < rows && 0 <= j < cols ==> w.px[i][j] == Rgb(1.0, 1.0, 1.0)
  {
    Build(rows, cols, (i: nat, j: nat) => Rgb(1.0, 1.0, 1.0))
  }

  /** `images.bytescale` applied to a colour image whose values lie in [0, 1]. */
  function ByteScaleImage(c: Grid<Rgb<real>>): (out: Grid<Rgb<int>>)
    requires c.Valid() && InUnitRange(c)
    ensures SameShape(out, c)
    ensures forall i, j :: 0 <= i < c.rows && 0 <= j < c.cols ==>
      0 <= out.px[i][j].r <= 255 && 0 <= out.px[i][j].g <= 255 && 0 <= out.px[i][j].b <= 255
  {
    Build(c.rows, c.cols, (i: nat, j: nat) requires i < c.rows && j < c.cols =>
      Rgb(ByteScale(c.px[i][j].r), ByteScale(c.px[i][j].g), ByteScale(c.px[i][j].b)))
  }

  // ===========================================================================
  // Pixel arithmetic shared by the in-place kernels

  function Max(a: real, b: real): real { if a >= b then a else b }
  function Min(a: real, b: real): real { if a <= b then a else b }
  function Max3(a: real, b: real, c: real): real { Max(Max(a, b), c) }

  /** `x*s`, the product of a pixel value and a factor. */
  function Scale(x: real, s: real): real { x * s }

  /** `t/m`, the quotient of a threshold by a maximum. At m = 0 numpy stores a
      non-finite value; the model never divides there (the corrections report
      `NonFiniteFactor` first), and the function is given the value 0 only so that it is
      total. */
  function Ratio(t: real, m: real): real {
    if m == 0.0 then 0.0 else t / m
  }

  /** `np.clip(x, 0, hi)`, which is `min(max(x, 0), hi)` even when `hi` < 0. */
  function ClipValue(x: real, hi: real): real { Min(Max(x, 0.0), hi) }

  /** `1/nonlinear/3`, the factor that turns the channel sum into the intensity. */
  function IntensityFactor(nonlinear: real): real
    requires nonlinear != 0.0
  {
    1.0 / nonlinear / 3.0
  }

  /** The mean of the three channels over `nonlinear`, with 1/3 where that is not positive. */
  function Intensity(r: real, g: real, b: real, nonlinear: real): (v: real)
    requires nonlinear != 0.0
    ensures v > 0.0
  {
    var i := Scale(r + g + b, IntensityFactor(nonlinear));
    if i <= 0.0 then 1.0 / 3.0 else i
  }

  /** `arcsinh(I)/I`, the asinh compression factor. */
  function StretchValue(r: real, g: real, b: real, nonlinear: real, asinh: real -> real): real
    requires nonlinear != 0.0
  {
    var i := Intensity(r, g, b, nonlinear);
    Ratio(asinh(i), i)
  }

  predicate Saturated(r: real, g: real, b: real, f: real) {
    Scale(r, f) > 1.0 || Scale(g, f) > 1.0 || Scale(b, f) > 1.0
  }

  // ===========================================================================
  // Whole-image operations on values

  /** The three channels, all of one shape. */
  datatype Channels = Channels(r: Grid<real>, g: Grid<real>, b: Grid<real>) {
    predicate Valid() { SameShape3(r, g, b) }

    /** No channel is negative anywhere. */
    predicate NonNegative()
      requires Valid()
    {
      forall i, j :: 0 <= i < r.rows && 0 <= j < r.cols ==>
        0.0 <= r.px[i][j] && 0.0 <= g.px[i][j] && 0.0 <= b.px[i][j]
    }

    /** The three channel values at one pixel. */
    function Pixel(i: nat, j: nat): Rgb<real>
      requires Valid() && i < r.rows && j < r.cols
    {
      Rgb(r.px[i][j], g.px[i][j], b.px[i][j])
    }
  }

  /** `x` is `y` with every channel multiplied by `k`: the hue of `y` is kept. */
  predicate ScaledBy(x: Rgb<real>, k: real, y: Rgb<real>) {
    x.r == Scale(y.r, k) && x.g == Scale(y.g, k) && x.b == Scale(y.b, k)
  }

  function RowMax(row: seq<real>): (m: real)
    requires |row| > 0
    ensures forall k :: 0 <= k < |row| ==> row[k] <= m
    ensures exists k :: 0 <= k < |row| && row[k] == m
  {
    if |row| == 1 then row[0] else Max(RowMax(row[..|row| - 1]), row[|row| - 1])
  }

  function RowsMax(rows: seq<seq<real>>): (m: real)
    requires |rows| > 0 && forall k :: 0 <= k < |rows| ==> |rows[k]| > 0
    ensures forall k, l :: 0 <= k < |rows| && 0 <= l < |rows[k]| ==> rows[k][l] <= m
    ensures exists k, l :: 0 <= k < |rows| && 0 <= l < |rows[k]| && rows[k][l] == m
  {
    if |rows| == 1 then RowMax(rows[0])
    else Max(RowsMax(rows[..|rows| - 1]), RowMax(rows[|rows| - 1]))
  }

  /** `im.max()`, defined for images with at least one pixel. */
  function GridMax(g: Grid<real>): (m: real)
    requires g.Valid() && g.rows > 0 && g.cols > 0
    ensures forall i, j :: 0 <= i < g.rows && 0 <= j < g.cols ==> g.px[i][j] <= m
    ensures exists i, j :: 0 <= i < g.rows && 0 <= j < g.cols && g.px[i][j] == m
  {
    RowsMax(g.px)
  }

  function ClipGrid(a: Grid<real>, hi: real): (r: Grid<real>)
    requires a.Valid()
    ensures SameShape(r, a)
    ensures forall i, j :: 0 <= i < a.rows && 0 <= j < a.cols ==> r.px[i][j] == ClipValue(a.px[i][j], hi)
  {
    Build(a.rows, a.cols, (i: nat, j: nat) requires i < a.rows && j < a.cols => ClipValue(a.px[i][j], hi))
  }

  function ScaleGrid(a: Grid<real>, s: real): (r: Grid<real>)
    requires a.Valid()
    ensures SameShape(r, a)
    ensures forall i, j :: 0 <= i < a.rows && 0 <= j < a.cols ==> r.px[i][j] == Scale(a.px[i][j], s)
  {
    Build(a.rows, a.cols, (i: nat, j: nat) requires i < a.rows && j < a.cols => Scale(a.px[i][j], s))
  }

  /** The boolean image `a > b`. */
  function Greater(a: Grid<real>, b: Grid<real>): (w: Grid<bool>)
    requires SameShape(a, b)
    ensures SameShape(w, a)
    ensures forall i, j :: 0 <= i < a.rows && 0 <= j < a.cols ==> w.px[i][j] == (a.px[i][j] > b.px[i][j])
  {
    Build(a.rows, a.cols, (i: nat, j: nat) requires i < a.rows && j < a.cols => a.px[i][j] > b.px[i][j])
  }

  /** The boolean image `m > t`. */
  function Above(m: Grid<real>, t: real): (w: Grid<bool>)
    requires m.Valid()
    ensures SameShape(w, m)
    ensures forall i, j :: 0 <= i < m.rows && 0 <= j < m.cols ==> w.px[i][j] == (m.px[i][j] > t)
  {
    Build(m.rows, m.cols, (i: nat, j: nat) requires i < m.rows && j < m.cols => m.px[i][j] > t)
  }

  /** `a` with the pixels selected by `w` taken from `src`: `a[w] = src[w]`. */
  function Select(w: Grid<bool>, src: Grid<real>, a: Grid<real>): (r: Grid<real>)
    requires SameShape(w, a) && SameShape(src, a)
    ensures SameShape(r, a)
    ensures forall i, j :: 0 <= i < a.rows && 0 <= j < a.cols ==>
      r.px[i][j] == if w.px[i][j] then src.px[i][j] else a.px[i][j]
  {
    Build(a.rows, a.cols, (i: nat, j: nat) requires i < a.rows && j < a.cols =>
      if w.px[i][j] then src.px[i][j] else a.px[i][j])
  }

  /** No selected pixel has a zero maximum, so dividing by it is defined. */
  predicate NoZeroWhere(w: Grid<bool>, m: Grid<real>)
    requires SameShape(w, m)
  {
    forall i, j :: 0 <= i < m.rows && 0 <= j < m.cols && w.px[i][j] ==> m.px[i][j] != 0.0
  }

  /** `a[w] *= t / m[w]`. */
  function ScaleWhere(a: Grid<real>, w: Grid<bool>, m: Grid<real>, t: real): (r: Grid<real>)
    requires SameShape(w, a) && SameShape(m, a)
    ensures SameShape(r, a)
    ensures forall i, j :: 0 <= i < a.rows && 0 <= j < a.cols ==>
      r.px[i][j] == if w.px[i][j] then Scale(a.px[i][j], Ratio(t, m.px[i][j])) else a.px[i][j]
  {
    Build(a.rows, a.cols, (i: nat, j: nat) requires i < a.rows && j < a.cols =>
      if w.px[i][j] then Scale(a.px[i][j], Ratio(t, m.px[i][j])) else a.px[i][j])
  }

  /** `a[w] = t`. */
  function FillWhere(a: Grid<real>, w: Grid<bool>, t: real): (r: Grid<real>)
    requires SameShape(w, a)
    ensures SameShape(r, a)
    ensures forall i, j :: 0 <= i < a.rows && 0 <= j < a.cols ==>
      r.px[i][j] == if w.px[i][j] then t else a.px[i][j]
  {
    Build(a.rows, a.cols, (i: nat, j: nat) requires i < a.rows && j < a.cols =>
      if w.px[i][j] then t else a.px[i][j])
  }

  /** `a[w] = 1.0 / m[w]`. */
  function RecipWhere(a: Grid<real>, w: Grid<bool>, m: Grid<real>): (r: Grid<real>)
    requires SameShape(w, a) && SameShape(m, a)
    ensures SameShape(r, a)
    ensures forall i, j :: 0 <= i < a.rows && 0 <= j < a.cols ==>
      r.px[i][j] == if w.px[i][j] then Ratio(1.0, m.px[i][j]) else a.px[i][j]
  {
    Build(a.rows, a.cols, (i: nat, j: nat) requires i < a.rows && j < a.cols =>
      if w.px[i][j] then Ratio(1.0, m.px[i][j]) else a.px[i][j])
  }

  /** The boolean image `(r*f > 1) | (g*f > 1) | (b*f > 1)`. */
  function SaturMask(c: Channels, f: Grid<real>): (w: Grid<bool>)
    requires c.Valid() && SameShape(f, c.r)
    ensures SameShape(w, f)
    ensures forall i, j :: 0 <= i < f.rows && 0 <= j < f.cols ==>
      w.px[i][j] == Saturated(c.r.px[i][j], c.g.px[i][j], c.b.px[i][j], f.px[i][j])
  {
    Build(f.rows, f.cols, (i: nat, j: nat) requires i < f.rows && j < f.cols =>
      Saturated(c.r.px[i][j], c.g.px[i][j], c.b.px[i][j], f.px[i][j]))
  }

  /** The per-pixel asinh factor `f = arcsinh(I)/I`. */
  function Stretch(c: Channels, nonlinear: real, asinh: real -> real): (f: Grid<real>)
    requires c.Valid() && nonlinear != 0.0
    ensures SameShape(f, c.r)
    ensures forall i, j :: 0 <= i < c.r.rows && 0 <= j < c.r.cols ==>
      f.px[i][j] == StretchValue(c.r.px[i][j], c.g.px[i][j], c.b.px[i][j], nonlinear, asinh)
  {
    Build(c.r.rows, c.r.cols, (i: nat, j: nat) requires i < c.r.rows && j < c.r.cols =>
      StretchValue(c.r.px[i][j], c.g.px[i][j], c.b.px[i][j], nonlinear, asinh))
  }

  /** The colour image `(r*f, g*f, b*f)`. */
  function Compose(c: Channels, f: Grid<real>): (out: Grid<Rgb<real>>)
    requires c.Valid() && SameShape(f, c.r)
    ensures SameShape(out, c.r)
    ensures forall i, j :: 0 <= i < f.rows && 0 <= j < f.cols ==>
      out.px[i][j] == Rgb(Scale(c.r.px[i][j], f.px[i][j]), Scale(c.g.px[i][j], f.px[i][j]), Scale(c.b.px[i][j], f.px[i][j]))
  {
    Build(f.rows, f.cols, (i: nat, j: nat) requires i < f.rows && j < f.cols =>
      Rgb(Scale(c.r.px[i][j], f.px[i][j]), Scale(c.g.px[i][j], f.px[i][j]), Scale(c.b.px[i][j], f.px[i][j])))
  }

  // ===========================================================================
  // _get_max_image

  /** One stage of `_get_max_image`: take `im` where it exceeds `m`, but only when
      more than one pixel does. */
  function MaxStage(m: Grid<real>, im: Grid<real>): (r: Grid<real>)
    requires SameShape(m, im)
    ensures SameShape(r, m)
    ensures forall i, j :: 0 <= i < m.rows && 0 <= j < m.cols ==>
      m.px[i][j] <= r.px[i][j] && (r.px[i][j] == m.px[i][j] || r.px[i][j] == im.px[i][j])
  {
    var w := Greater(im, m);
    if Count(w) > 1 then Select(w, im, m) else m
  }

  /** `_get_max_image(im1, im2, im3)`: never below `im1`, and every pixel is one of
      the three inputs' values there. */
  function MaxImage(im1: Grid<real>, im2: Grid<real>, im3: Grid<real>): (r: Grid<real>)
    requires SameShape3(im1, im2, im3)
    ensures SameShape(r, im1)
    ensures forall i, j :: 0 <= i < im1.rows && 0 <= j < im1.cols ==> im1.px[i][j] <= r.px[i][j]
    ensures forall i, j :: 0 <= i < im1.rows && 0 <= j < im1.cols ==>
      r.px[i][j] == im1.px[i][j] || r.px[i][j] == im2.px[i][j] || r.px[i][j] == im3.px[i][j]
  {
    MaxStage(MaxStage(im1, im2), im3)
  }

  /** Neither stage of `_get_max_image` has exactly one pixel to update. */
  predicate NoSinglePixelStage(c: Channels)
    requires c.Valid()
  {
    Count(Greater(c.g, c.r)) != 1 && Count(Greater(c.b, MaxStage(c.r, c.g))) != 1
  }

  lemma MaxStageIsMax(m: Grid<real>, im: Grid<real>)
    requires SameShape(m, im) && Count(Greater(im, m)) != 1
    ensures forall i, j :: 0 <= i < m.rows && 0 <= j < m.cols ==>
      MaxStage(m, im).px[i][j] == Max(m.px[i][j], im.px[i][j])
  {
    forall i, j | 0 <= i < m.rows && 0 <= j < m.cols
      ensures MaxStage(m, im).px[i][j] == Max(m.px[i][j], im.px[i][j])
    {
      if im.px[i][j] > m.px[i][j] {
        CountPositive(Greater(im, m), i, j);
      }
    }
  }

  /** When neither stage has exactly one pixel to update, `_get_max_image` is the
      pointwise maximum of its three inputs. */
  lemma MaxImageIsMax(c: Channels)
    requires c.Valid() && NoSinglePixelStage(c)
    ensures forall i, j :: 0 <= i < c.r.rows && 0 <= j < c.r.cols ==>
      MaxImage(c.r, c.g, c.b).px[i][j] == Max3(c.r.px[i][j], c.g.px[i][j], c.b.px[i][j])
  {
    MaxStageIsMax(c.r, c.g);
    MaxStageIsMax(MaxStage(c.r, c.g), c.b);
  }

  /** When exactly one pixel of `im` exceeds `m`, a stage returns `m` unchanged, and so
      falls short of the pointwise maximum at that pixel. */
  lemma MaxStageSkipsSingle(m: Grid<real>, im: Grid<real>)
    requires SameShape(m, im) && Count(Greater(im, m)) == 1
    ensures MaxStage(m, im) == m
    ensures exists i, j ::
      0 <= i < m.rows && 0 <= j < m.cols && MaxStage(m, im).px[i][j] < Max(m.px[i][j], im.px[i][j])
  {
    var w := Greater(im, m);
    CountWitness(w);
    var i, j :| 0 <= i < w.rows && 0 <= j < w.cols && w.px[i][j];
    assert MaxStage(m, im).px[i][j] < Max(m.px[i][j], im.px[i][j]);
  }

  /** If no pixel of `im` exceeds `m`, a stage leaves `m` as it is. */
  lemma MaxStageNoop(m: Grid<real>, im: Grid<real>)
    requires SameShape(m, im)
    requires forall i, j :: 0 <= i < m.rows && 0 <= j < m.cols ==> im.px[i][j] <= m.px[i][j]
    ensures MaxStage(m, im) == m
  {
    Ext(MaxStage(m, im), m);
  }

  /** A single brighter pixel is skipped: here `im2` exceeds `im1` at exactly one pixel,
      and `_get_max_image` returns `im1`, not the pointwise maximum. */
  lemma MaxImageSkipsSinglePixel()
    ensures var im1 := Grid(1, 2, [[0.0, 0.0]]);
            var im2 := Grid(1, 2, [[1.0, 0.0]]);
            MaxImage(im1, im2, im1) == im1 &&
            MaxImage(im1, im2, im1).px[0][0] < Max3(im1.px[0][0], im2.px[0][0], im1.px[0][0])
  {
    var im1 := Grid(1, 2, [[0.0, 0.0]]);
    var im2 := Grid(1, 2, [[1.0, 0.0]]);
    var w := Greater(im2, im1);
    assert w.px == [[true, false]] by {
      assert w.px[0] == [true, false];
    }
    assert [[true, false]][..0] == [];
    assert [true, false][..1] == [true];
    assert [true][..0] == [];
    assert Count(w) == 1;
    MaxStageNoop(im1, im1);
  }

  // ===========================================================================
  // _fix_hard_satur

  /** `_fix_hard_satur(r, g, b, satval)`: the channels afterwards and the returned
      maximum image. Where the maximum image exceeds `satval`, and more than one pixel
      does, all three channels are multiplied by `satval/max`. A zero maximum there
      (possible only when `satval` < 0) makes numpy store a non-finite factor. */
  function HardSatur(c: Channels, satval: real): (r: Result<(Channels, Grid<real>)>)
    requires c.Valid()
    ensures r.Ok? ==> r.value.0.Valid() && SameShape(r.value.0.r, c.r) && SameShape(r.value.1, c.r)
  {
    var m := MaxImage(c.r, c.g, c.b);
    var w := Above(m, satval);
    if Count(w) <= 1 then Ok((c, m))
    else if !NoZeroWhere(w, m) then Err(NonFiniteFactor)
    else Ok((Channels(ScaleWhere(c.r, w, m, satval), ScaleWhere(c.g, w, m, satval),
                      ScaleWhere(c.b, w, m, satval)), FillWhere(m, w, satval)))
  }

  /** Pixel arithmetic behind the saturation caps: for 0 ≤ x ≤ m and m > 0, the
      product x·(t/m) is at most t, and reaches t at x = m. */
  lemma CapBelow(x: real, m: real, t: real)
    requires 0.0 <= x <= m && 0.0 < m && 0.0 <= t
    ensures Scale(x, Ratio(t, m)) <= t && Scale(m, Ratio(t, m)) == t
  {
    var k := t / m;
    assert m * k == t;
    assert x * k <= m * k;
  }

  /** The rescaling branch of `HardSatur`, unfolded. */
  lemma HardSaturRescales(c: Channels, satval: real)
    requires c.Valid()
    requires Count(Above(MaxImage(c.r, c.g, c.b), satval)) > 1
    requires NoZeroWhere(Above(MaxImage(c.r, c.g, c.b), satval), MaxImage(c.r, c.g, c.b))
    ensures var m := MaxImage(c.r, c.g, c.b); var w := Above(m, satval);
      HardSatur(c, satval) == Ok((Channels(ScaleWhere(c.r, w, m, satval), ScaleWhere(c.g, w, m, satval),
                                          ScaleWhere(c.b, w, m, satval)), FillWhere(m, w, satval)))
  {
  }

  /** What `_fix_hard_satur` does at one pixel: where the maximum exceeds `satval` and
      more than one pixel does, the three channels are scaled by `satval/max` and the
      maximum becomes `satval`; elsewhere the pixel and the maximum are kept. */
  lemma HardSaturAt(c: Channels, satval: real, i: nat, j: nat)
    requires c.Valid() && HardSatur(c, satval).Ok? && i < c.r.rows && j < c.r.cols
    ensures HardSatur(c, satval).value.0.Valid()
    ensures var d, m := HardSatur(c, satval).value.0, HardSatur(c, satval).value.1;
      var mx := MaxImage(c.r, c.g, c.b);
      SameShape(d.r, c.r) && SameShape(m, c.r) &&
      if Count(Above(mx, satval)) > 1 && mx.px[i][j] > satval then
        mx.px[i][j] != 0.0 && ScaledBy(d.Pixel(i, j), Ratio(satval, mx.px[i][j]), c.Pixel(i, j)) &&
        m.px[i][j] == satval
      else
        d.Pixel(i, j) == c.Pixel(i, j) && m.px[i][j] == mx.px[i][j]
  {
  }

  /** The correction multiplies the three channels of a pixel by one factor, so channel
      ratios (the hue) are kept; where it acts, the maximum image becomes `satval`;
      elsewhere nothing changes. */
  lemma HardSaturKeepsHue(c: Channels, satval: real, i: nat, j: nat)
    requires c.Valid() && HardSatur(c, satval).Ok? && i < c.r.rows && j < c.r.cols
    ensures HardSatur(c, satval).value.0.Valid()
    ensures var d, m := HardSatur(c, satval).value.0, HardSatur(c, satval).value.1;
      SameShape(d.r, c.r) && SameShape(m, c.r) &&
      exists k: real :: ScaledBy(d.Pixel(i, j), k, c.Pixel(i, j)) && (k != 1.0 ==> m.px[i][j] == satval)
  {
    HardSaturAt(c, satval, i, j);
    var mx := MaxImage(c.r, c.g, c.b);
    var d := HardSatur(c, satval).value.0;
    if Count(Above(mx, satval)) > 1 && mx.px[i][j] > satval {
      assert ScaledBy(d.Pixel(i, j), Ratio(satval, mx.px[i][j]), c.Pixel(i, j));
    } else {
      assert ScaledBy(d.Pixel(i, j), 1.0, c.Pixel(i, j));
    }
  }

  /** With non-negative channels, `satval` ≥ 0 and no stage that has exactly one pixel
      to update, no channel exceeds `satval` afterwards, and the maximum image is
      the pointwise maximum capped at `satval`. */
  lemma HardSaturCaps(c: Channels, satval: real)
    requires c.Valid() && NoSinglePixelStage(c) && 0.0 <= satval
    requires Count(Above(MaxImage(c.r, c.g, c.b), satval)) != 1
    requires c.NonNegative()
    ensures HardSatur(c, satval).Ok?
    ensures var d, m := HardSatur(c, satval).value.0, HardSatur(c, satval).value.1;
      d.Valid() && SameShape(m, c.r) && SameShape(d.r, c.r)
    ensures var d, m := HardSatur(c, satval).value.0, HardSatur(c, satval).value.1;
      forall i, j :: 0 <= i < c.r.rows && 0 <= j < c.r.cols ==>
        d.r.px[i][j] <= satval && d.g.px[i][j] <= satval && d.b.px[i][j] <= satval &&
        m.px[i][j] == Min(Max3(c.r.px[i][j], c.g.px[i][j], c.b.px[i][j]), satval)
  {
    MaxImageIsMax(c);
    var mx := MaxImage(c.r, c.g, c.b);
    assert NoZeroWhere(Above(mx, satval), mx);
    var d, m := HardSatur(c, satval).value.0, HardSatur(c, satval).value.1;
    forall i, j | 0 <= i < c.r.rows && 0 <= j < c.r.cols
      ensures d.r.px[i][j] <= satval && d.g.px[i][j] <= satval && d.b.px[i][j] <= satval &&
        m.px[i][j] == Min(Max3(c.r.px[i][j], c.g.px[i][j], c.b.px[i][j]), satval)
    {
      HardSaturCapsAt(c, satval, i, j);
    }
  }

  /** One pixel of `HardSaturCaps`. */
  lemma HardSaturCapsAt(c: Channels, satval: real, i: nat, j: nat)
    requires c.Valid() && 0.0 <= satval && HardSatur(c, satval).Ok? && i < c.r.rows && j < c.r.cols
    requires Count(Above(MaxImage(c.r, c.g, c.b), satval)) != 1
    requires MaxImage(c.r, c.g, c.b).px[i][j] == Max3(c.r.px[i][j], c.g.px[i][j], c.b.px[i][j])
    requires 0.0 <= c.r.px[i][j] && 0.0 <= c.g.px[i][j] && 0.0 <= c.b.px[i][j]
    ensures HardSatur(c, satval).value.0.Valid()
    ensures var d, m := HardSatur(c, satval).value.0, HardSatur(c, satval).value.1;
      SameShape(d.r, c.r) && SameShape(m, c.r) &&
      d.r.px[i][j] <= satval && d.g.px[i][j] <= satval && d.b.px[i][j] <= satval &&
      m.px[i][j] == Min(Max3(c.r.px[i][j], c.g.px[i][j], c.b.px[i][j]), satval)
  {
    HardSaturAt(c, satval, i, j);
    var mx := MaxImage(c.r, c.g, c.b);
    if mx.px[i][j] > satval {
      CountPositive(Above(mx, satval), i, j);
      CapBelow(c.r.px[i][j], mx.px[i][j], satval);
      CapBelow(c.g.px[i][j], mx.px[i][j], satval);
      CapBelow(c.b.px[i][j], mx.px[i][j], satval);
    }
  }

  // ===========================================================================
  // _fix_rgb_satur

  /** `_fix_rgb_satur(r, g, b, fac)`: the factor image afterwards. Where some channel
      times the factor exceeds one, and more than one pixel does, the factor becomes
      one over the maximum image. A zero maximum there makes numpy store an infinite
      factor. */
  function RgbSatur(c: Channels, fac: Grid<real>): (r: Result<Grid<real>>)
    requires c.Valid() && SameShape(fac, c.r)
    ensures r.Ok? ==> SameShape(r.value, fac)
  {
    var m := MaxImage(c.r, c.g, c.b);
    var w := SaturMask(c, fac);
    if Count(w) <= 1 then Ok(fac)
    else if !NoZeroWhere(w, m) then Err(NonFiniteFactor)
    else Ok(RecipWhere(fac, w, m))
  }

  /** Only saturated pixels change, and only when there is more than one of them;
      those get one over the maximum image. */
  lemma RgbSaturTouchesOnlySaturated(c: Channels, fac: Grid<real>, i: nat, j: nat)
    requires c.Valid() && SameShape(fac, c.r) && RgbSatur(c, fac).Ok?
    requires i < fac.rows && j < fac.cols
    ensures SameShape(RgbSatur(c, fac).value, fac)
    ensures var f, mx := RgbSatur(c, fac).value, MaxImage(c.r, c.g, c.b);
      if Count(SaturMask(c, fac)) > 1 && Saturated(c.r.px[i][j], c.g.px[i][j], c.b.px[i][j], fac.px[i][j]) then
        mx.px[i][j] != 0.0 && f.px[i][j] == Ratio(1.0, mx.px[i][j])
      else
        f.px[i][j] == fac.px[i][j]
  {
  }

  /** A product with a non-negative factor that exceeds one needs a positive value. */
  lemma PositiveWhenAbove(x: real, s: real)
    requires 0.0 <= x && Scale(x, s) > 1.0
    ensures 0.0 < x
  {
  }

  /** With non-negative channels, a positive factor and no stage that has exactly one
      pixel to update, the correction succeeds and leaves a positive factor with every
      channel times the factor at most one, the brightest channel of a corrected pixel
      at exactly one. */
  lemma RgbSaturBound(c: Channels, fac: Grid<real>)
    requires c.Valid() && SameShape(fac, c.r) && NoSinglePixelStage(c)
    requires Count(SaturMask(c, fac)) != 1
    requires c.NonNegative()
    requires forall i, j :: 0 <= i < c.r.rows && 0 <= j < c.r.cols ==> 0.0 < fac.px[i][j]
    ensures RgbSatur(c, fac).Ok? && Capped(c, RgbSatur(c, fac).value)
    ensures var f := RgbSatur(c, fac).value;
      forall i, j :: 0 <= i < c.r.rows && 0 <= j < c.r.cols ==>
        Saturated(c.r.px[i][j], c.g.px[i][j], c.b.px[i][j], fac.px[i][j]) ==>
        Scale(Max3(c.r.px[i][j], c.g.px[i][j], c.b.px[i][j]), f.px[i][j]) == 1.0
  {
    MaxImageIsMax(c);
    var m := MaxImage(c.r, c.g, c.b);
    var w := SaturMask(c, fac);
    forall i, j | 0 <= i < c.r.rows && 0 <= j < c.r.cols && w.px[i][j]
      ensures m.px[i][j] > 0.0
    {
      SaturatedIsPositive(c.r.px[i][j], c.g.px[i][j], c.b.px[i][j], fac.px[i][j]);
    }
    assert NoZeroWhere(w, m);
    var f := RgbSatur(c, fac).value;
    forall i, j | 0 <= i < c.r.rows && 0 <= j < c.r.cols
      ensures 0.0 < f.px[i][j] &&
        Scale(c.r.px[i][j], f.px[i][j]) <= 1.0 && Scale(c.g.px[i][j], f.px[i][j]) <= 1.0 &&
        Scale(c.b.px[i][j], f.px[i][j]) <= 1.0 &&
        (Saturated(c.r.px[i][j], c.g.px[i][j], c.b.px[i][j], fac.px[i][j]) ==>
          Scale(Max3(c.r.px[i][j], c.g.px[i][j], c.b.px[i][j]), f.px[i][j]) == 1.0)
    {
      RgbSaturBoundAt(c, fac, i, j);
    }
    assert Capped(c, f);
  }

  /** A saturated pixel with non-negative channels has a positive brightest channel. */
  lemma SaturatedIsPositive(r: real, g: real, b: real, f: real)
    requires 0.0 <= r && 0.0 <= g && 0.0 <= b && Saturated(r, g, b, f)
    ensures 0.0 < Max3(r, g, b)
  {
    if Scale(r, f) > 1.0 {
      PositiveWhenAbove(r, f);
    } else if Scale(g, f) > 1.0 {
      PositiveWhenAbove(g, f);
    } else {
      PositiveWhenAbove(b, f);
    }
  }

  /** Every pixel of `f` is a positive factor that keeps the three channels at or
      below one. */
  predicate Capped(c: Channels, f: Grid<real>)
    requires c.Valid() && SameShape(f, c.r)
  {
    forall i, j :: 0 <= i < c.r.rows && 0 <= j < c.r.cols ==>
      0.0 < f.px[i][j] &&
      Scale(c.r.px[i][j], f.px[i][j]) <= 1.0 && Scale(c.g.px[i][j], f.px[i][j]) <= 1.0 &&
      Scale(c.b.px[i][j], f.px[i][j]) <= 1.0
  }

  /** Composing non-negative channels with a capping factor stays in [0, 1]. */
  lemma ComposeInUnitRange(c: Channels, f: Grid<real>)
    requires c.Valid() && SameShape(f, c.r) && c.NonNegative() && Capped(c, f)
    ensures InUnitRange(Compose(c, f))
  {
    var out := Compose(c, f);
    forall i, j | 0 <= i < out.rows && 0 <= j < out.cols
      ensures 0.0 <= out.px[i][j].r <= 1.0 && 0.0 <= out.px[i][j].g <= 1.0 && 0.0 <= out.px[i][j].b <= 1.0
    {
      ScaleNonNegative(c.r.px[i][j], f.px[i][j]);
      ScaleNonNegative(c.g.px[i][j], f.px[i][j]);
      ScaleNonNegative(c.b.px[i][j], f.px[i][j]);
    }
  }

  /** One pixel of `RgbSaturBound`. */
  lemma RgbSaturBoundAt(c: Channels, fac: Grid<real>, i: nat, j: nat)
    requires c.Valid() && SameShape(fac, c.r) && RgbSatur(c, fac).Ok? && i < c.r.rows && j < c.r.cols
    requires Count(SaturMask(c, fac)) != 1
    requires MaxImage(c.r, c.g, c.b).px[i][j] == Max3(c.r.px[i][j], c.g.px[i][j], c.b.px[i][j])
    requires 0.0 <= c.r.px[i][j] && 0.0 <= c.g.px[i][j] && 0.0 <= c.b.px[i][j] && 0.0 < fac.px[i][j]
    ensures SameShape(RgbSatur(c, fac).value, fac)
    ensures var f := RgbSatur(c, fac).value;
      0.0 < f.px[i][j] &&
      Scale(c.r.px[i][j], f.px[i][j]) <= 1.0 && Scale(c.g.px[i][j], f.px[i][j]) <= 1.0 &&
      Scale(c.b.px[i][j], f.px[i][j]) <= 1.0 &&
      (Saturated(c.r.px[i][j], c.g.px[i][j], c.b.px[i][j], fac.px[i][j]) ==>
        Scale(Max3(c.r.px[i][j], c.g.px[i][j], c.b.px[i][j]), f.px[i][j]) == 1.0)
  {
    RgbSaturTouchesOnlySaturated(c, fac, i, j);
    var m := MaxImage(c.r, c.g, c.b).px[i][j];
    if Saturated(c.r.px[i][j], c.g.px[i][j], c.b.px[i][j], fac.px[i][j]) {
      CountPositive(SaturMask(c, fac), i, j);
      SaturatedIsPositive(c.r.px[i][j], c.g.px[i][j], c.b.px[i][j], fac.px[i][j]);
      CapBelow(c.r.px[i][j], m, 1.0);
      CapBelow(c.g.px[i][j], m, 1.0);
      CapBelow(c.b.px[i][j], m, 1.0);
      RatioPositive(1.0, m);
    }
  }

  /** A quotient of two positive numbers is positive. */
  lemma RatioPositive(t: real, m: real)
    requires 0.0 < t && 0.0 < m
    ensures 0.0 < Ratio(t, m)
  {
  }

  /** The single-pixel skip in `_get_max_image` can leave a zero maximum at a
      saturated pixel: here `g` exceeds `r` at one pixel only, where `r` is 0, so the
      maximum image stays 0 there and the factor would be 1/0. */
  lemma RgbSaturZeroMaximum()
    ensures var c := Channels(Grid(1, 3, [[0.0, 5.0, 5.0]]), Grid(1, 3, [[5.0, 0.0, 0.0]]),
                              Grid(1, 3, [[0.0, 0.0, 0.0]]));
            RgbSatur(c, Grid(1, 3, [[1.0, 1.0, 1.0]])) == Err(NonFiniteFactor)
  {
    var c := Channels(Grid(1, 3, [[0.0, 5.0, 5.0]]), Grid(1, 3, [[5.0, 0.0, 0.0]]),
                      Grid(1, 3, [[0.0, 0.0, 0.0]]));
    var fac := Grid(1, 3, [[1.0, 1.0, 1.0]]);
    var w1 := Greater(c.g, c.r);
    assert w1.px == [[true, false, false]] by {
      assert w1.px[0] == [true, false, false];
    }
    assert [[true, false, false]][..0] == [];
    assert [true, false, false][..2] == [true, false];
    assert [true, false][..1] == [true];
    assert [true][..0] == [];
    assert Count(w1) == 1;
    assert MaxStage(c.r, c.g) == c.r;
    MaxStageNoop(c.r, c.b);
    var m := MaxImage(c.r, c.g, c.b);
    assert m == c.r;
    var w := SaturMask(c, fac);
    assert Saturated(0.0, 5.0, 0.0, 1.0) && Saturated(5.0, 0.0, 0.0, 1.0);
    assert w.px[0][0] && w.px[0][1];
    CountAtLeastTwo(w, 0, 0, 0, 1);
    assert !NoZeroWhere(w, m);
  }

  // ===========================================================================
  // get_color_image

  function ClipChannels(imr: Grid<real>, img: Grid<real>, imb: Grid<real>): (c: Channels)
    requires imr.Valid() && img.Valid() && imb.Valid()
    requires imr.rows > 0 && imr.cols > 0 && img.rows > 0 && img.cols > 0 && imb.rows > 0 && imb.cols > 0
    ensures SameShape(c.r, imr) && SameShape(c.g, img) && SameShape(c.b, imb)
  {
    Channels(ClipGrid(imr, GridMax(imr)), ClipGrid(img, GridMax(img)), ClipGrid(imb, GridMax(imb)))
  }

  function ScaleChannels(c: Channels, scales: Option<Rgb<real>>): (d: Channels)
    requires c.r.Valid() && c.g.Valid() && c.b.Valid()
    ensures SameShape(d.r, c.r) && SameShape(d.g, c.g) && SameShape(d.b, c.b)
  {
    if scales.None? then c
    else Channels(ScaleGrid(c.r, scales.value.r), ScaleGrid(c.g, scales.value.g), ScaleGrid(c.b, scales.value.b))
  }

  /** The value `keys.get('nonlinear', 1.0)` takes when no `nonlinear` is passed. */
  const DefaultNonlinear: real := 1.0

  /** The factors `scales[0]`, `scales[1]` and `scales[2]` that `get_color_image` reads
      from the list it is given, if any: a list of fewer than three raises an
      IndexError, and entries after the third are never read. */
  function Factors(scales: Option<seq<real>>): (t: Result<Option<Rgb<real>>>)
    ensures scales.None? ==> t == Ok(None)
    ensures scales.Some? ==> (t.Ok? <==> |scales.value| >= 3)
    ensures t.Err? ==> t.error == ShortScales
    ensures scales.Some? && t.Ok? ==>
      t.value.Some? && [t.value.value.r, t.value.value.g, t.value.value.b] == scales.value[..3]
  {
    if scales.None? then Ok(None)
    else if |scales.value| < 3 then Err(ShortScales)
    else Ok(Some(Rgb(scales.value[0], scales.value[1], scales.value[2])))
  }

  /** The channels `get_color_image` hands to the stretch: copied, clipped at zero
      (`clip(0, max)`), multiplied by the scales, and passed through `_fix_hard_satur`
      when a `satval` is given. */
  function Prepared(imr: Grid<real>, img: Grid<real>, imb: Grid<real>,
                    scales: Option<seq<real>>, satval: Option<real>): (r: Result<Channels>)
    requires imr.Valid() && img.Valid() && imb.Valid()
    ensures AnyEmpty(imr, img, imb) ==> r == Err(EmptyImage)
    ensures !AnyEmpty(imr, img, imb) && scales.Some? && |scales.value| < 3 ==> r == Err(ShortScales)
    ensures r.Ok? ==> Factors(scales).Ok?
    ensures !AnyEmpty(imr, img, imb) && Factors(scales).Ok? && satval.None? ==> r.Ok?
  {
    if AnyEmpty(imr, img, imb) then
      Err(EmptyImage)
    else
      match Factors(scales)
      case Err(e) => Err(e)
      case Ok(t) => SaturFix(ScaleChannels(ClipChannels(imr, img, imb), t), satval)
  }

  /** Some input has a zero-size dimension, so `max()` of it raises a ValueError. */
  predicate AnyEmpty(imr: Grid<real>, img: Grid<real>, imb: Grid<real>) {
    imr.rows == 0 || imr.cols == 0 || img.rows == 0 || img.cols == 0 || imb.rows == 0 || imb.cols == 0
  }

  /** The optional `_fix_hard_satur` step, on channels that need not share a shape. */
  function SaturFix(c: Channels, satval: Option<real>): (r: Result<Channels>)
    requires c.r.Valid() && c.g.Valid() && c.b.Valid()
    ensures r.Ok? ==> SameShape(r.value.r, c.r) && SameShape(r.value.g, c.g) && SameShape(r.value.b, c.b)
  {
    if satval.None? then Ok(c)
    else if !c.Valid() then Err(ShapeMismatch)
    else match HardSatur(c, satval.value)
      case Err(e) => Err(e)
      case Ok(p) => Ok(p.0)
  }

  /** `get_color_image(imr, img, imb, nonlinear=, scales=, satval=)`. */
  function ColorImage(imr: Grid<real>, img: Grid<real>, imb: Grid<real>, nonlinear: real,
                      scales: Option<seq<real>>, satval: Option<real>,
                      asinh: real -> real): (r: Result<Grid<Rgb<real>>>)
    requires imr.Valid() && img.Valid() && imb.Valid()
    ensures AnyEmpty(imr, img, imb) ==> r == Err(EmptyImage)
    ensures !AnyEmpty(imr, img, imb) && scales.Some? && |scales.value| < 3 ==> r == Err(ShortScales)
    ensures !AnyEmpty(imr, img, imb) && Factors(scales).Ok? && satval.None? && nonlinear == 0.0 ==>
      r == Err(ZeroDivision)
  {
    match Prepared(imr, img, imb, scales, satval)
    case Err(e) => Err(e)
    case Ok(c) => Stretched(c, nonlinear, asinh)
  }

  /** The second half of `get_color_image`: the stretch factor, its saturation fix and
      the product of each channel with it. */
  function Stretched(c: Channels, nonlinear: real, asinh: real -> real): (r: Result<Grid<Rgb<real>>>)
    ensures r.Ok? ==> c.Valid() && SameShape(r.value, c.r)
  {
    if nonlinear == 0.0 then Err(ZeroDivision)
    else if !c.Valid() then Err(ShapeMismatch)
    else match RgbSatur(c, Stretch(c, nonlinear, asinh))
      case Err(e) => Err(e)
      case Ok(f) => Ok(Compose(c, f))
  }

  /** The prepared channels keep the shapes of the three inputs. */
  lemma PreparedShape(imr: Grid<real>, img: Grid<real>, imb: Grid<real>,
                      scales: Option<seq<real>>, satval: Option<real>)
    requires imr.Valid() && img.Valid() && imb.Valid()
    requires Prepared(imr, img, imb, scales, satval).Ok?
    ensures var c := Prepared(imr, img, imb, scales, satval).value;
      SameShape(c.r, imr) && SameShape(c.g, img) && SameShape(c.b, imb)
  {
  }

  /** Without `satval`, three non-empty inputs of unequal shapes are refused when the
      stretch combines them. */
  lemma ColorImageShapeMismatch(imr: Grid<real>, img: Grid<real>, imb: Grid<real>, nonlinear: real,
                                scales: Option<seq<real>>, asinh: real -> real)
    requires imr.Valid() && img.Valid() && imb.Valid() && !AnyEmpty(imr, img, imb)
    requires nonlinear != 0.0 && !SameShape3(imr, img, imb) && Factors(scales).Ok?
    ensures ColorImage(imr, img, imb, nonlinear, scales, None, asinh) == Err(ShapeMismatch)
  {
    var c := ScaleChannels(ClipChannels(imr, img, imb), Factors(scales).value);
    assert Prepared(imr, img, imb, scales, None) == Ok(c);
    assert !c.Valid();
  }

  /** Only the first three scales are read: a longer list gives the same colour image
      as its first three entries. */
  lemma ColorImageReadsThreeScales(imr: Grid<real>, img: Grid<real>, imb: Grid<real>, nonlinear: real,
                                   s: seq<real>, satval: Option<real>, asinh: real -> real)
    requires imr.Valid() && img.Valid() && imb.Valid() && |s| >= 3
    ensures ColorImage(imr, img, imb, nonlinear, Some(s), satval, asinh) ==
            ColorImage(imr, img, imb, nonlinear, Some(s[..3]), satval, asinh)
  {
    assert Factors(Some(s)) == Factors(Some(s[..3]));
  }

  /** A colour image has the shape of its red input, and the three inputs share it. */
  lemma ColorImageShape(imr: Grid<real>, img: Grid<real>, imb: Grid<real>, nonlinear: real,
                        scales: Option<seq<real>>, satval: Option<real>, asinh: real -> real)
    requires imr.Valid() && img.Valid() && imb.Valid()
    requires ColorImage(imr, img, imb, nonlinear, scales, satval, asinh).Ok?
    ensures var out := ColorImage(imr, img, imb, nonlinear, scales, satval, asinh).value;
      out.Valid() && out.rows == imr.rows && out.cols == imr.cols
    ensures SameShape3(imr, img, imb) && Prepared(imr, img, imb, scales, satval).Ok?
    ensures var c := Prepared(imr, img, imb, scales, satval).value;
      c.Valid() && SameShape(c.r, imr) &&
      ColorImage(imr, img, imb, nonlinear, scales, satval, asinh) == Stretched(c, nonlinear, asinh)
  {
    assert Prepared(imr, img, imb, scales, satval).Ok?;
    PreparedShape(imr, img, imb, scales, satval);
    var c := Prepared(imr, img, imb, scales, satval).value;
    assert ColorImage(imr, img, imb, nonlinear, scales, satval, asinh) == Stretched(c, nonlinear, asinh);
  }

  /** The stretch keeps the shape, and each output pixel is the input pixel times the
      corrected factor there. */
  lemma StretchedAt(c: Channels, nonlinear: real, asinh: real -> real, i: nat, j: nat)
    requires c.Valid() && Stretched(c, nonlinear, asinh).Ok? && i < c.r.rows && j < c.r.cols
    ensures nonlinear != 0.0 && RgbSatur(c, Stretch(c, nonlinear, asinh)).Ok?
    ensures var out, f := Stretched(c, nonlinear, asinh).value, RgbSatur(c, Stretch(c, nonlinear, asinh)).value;
      SameShape(out, c.r) && SameShape(f, c.r) && ScaledBy(out.px[i][j], f.px[i][j], c.Pixel(i, j))
  {
  }

  /** A pixel that is black on entry to the stretch stays black. */
  lemma StretchedBlack(c: Channels, nonlinear: real, asinh: real -> real, i: nat, j: nat)
    requires c.Valid() && Stretched(c, nonlinear, asinh).Ok? && i < c.r.rows && j < c.r.cols
    requires c.Pixel(i, j) == Rgb(0.0, 0.0, 0.0)
    ensures SameShape(Stretched(c, nonlinear, asinh).value, c.r)
    ensures Stretched(c, nonlinear, asinh).value.px[i][j] == Rgb(0.0, 0.0, 0.0)
  {
    StretchedAt(c, nonlinear, asinh, i, j);
  }

  /** Clipping at zero and scaling turn a pixel whose inputs are at most zero into
      black. */
  lemma ScaledBlack(imr: Grid<real>, img: Grid<real>, imb: Grid<real>,
                    scales: Option<Rgb<real>>, i: nat, j: nat)
    requires imr.Valid() && img.Valid() && imb.Valid() && SameShape3(imr, img, imb)
    requires i < imr.rows && j < imr.cols
    requires imr.px[i][j] <= 0.0 && img.px[i][j] <= 0.0 && imb.px[i][j] <= 0.0
    requires 0.0 <= GridMax(imr) && 0.0 <= GridMax(img) && 0.0 <= GridMax(imb)
    ensures var c := ScaleChannels(ClipChannels(imr, img, imb), scales);
      SameShape(c.r, imr) && SameShape(c.g, imr) && SameShape(c.b, imr) &&
      c.r.px[i][j] == 0.0 && c.g.px[i][j] == 0.0 && c.b.px[i][j] == 0.0
  {
    if scales.Some? {
      ClipScaleBlack(imr, scales.value.r, i, j);
      ClipScaleBlack(img, scales.value.g, i, j);
      ClipScaleBlack(imb, scales.value.b, i, j);
    } else {
      ClipScaleBlack(imr, 1.0, i, j);
      ClipScaleBlack(img, 1.0, i, j);
      ClipScaleBlack(imb, 1.0, i, j);
    }
  }

  /** One channel of `ScaledBlack`. */
  lemma ClipScaleBlack(a: Grid<real>, s: real, i: nat, j: nat)
    requires a.Valid() && i < a.rows && j < a.cols && a.px[i][j] <= 0.0 && 0.0 <= GridMax(a)
    ensures ClipGrid(a, GridMax(a)).px[i][j] == 0.0 && ScaleGrid(ClipGrid(a, GridMax(a)), s).px[i][j] == 0.0
  {
    var k := ClipGrid(a, GridMax(a));
    assert k.px[i][j] == ClipValue(a.px[i][j], GridMax(a)) == 0.0;
    assert ScaleGrid(k, s).px[i][j] == Scale(0.0, s) == 0.0;
  }

  /** The hard-saturation fix keeps a black pixel black. */
  lemma SaturFixBlack(c: Channels, satval: Option<real>, i: nat, j: nat)
    requires c.Valid() && SaturFix(c, satval).Ok? && i < c.r.rows && j < c.r.cols
    requires c.Pixel(i, j) == Rgb(0.0, 0.0, 0.0)
    ensures var d := SaturFix(c, satval).value;
      d.Valid() && SameShape(d.r, c.r) && d.Pixel(i, j) == Rgb(0.0, 0.0, 0.0)
  {
    if satval.Some? {
      HardSaturAt(c, satval.value, i, j);
    }
  }

  /** Black stays black: a pixel whose three inputs are at most zero comes out as
      (0, 0, 0), whatever the stretch factor is there. */
  lemma BlackStaysBlack(imr: Grid<real>, img: Grid<real>, imb: Grid<real>, nonlinear: real,
                        scales: Option<seq<real>>, satval: Option<real>, asinh: real -> real,
                        i: nat, j: nat)
    requires imr.Valid() && img.Valid() && imb.Valid() && SameShape3(imr, img, imb)
    requires ColorImage(imr, img, imb, nonlinear, scales, satval, asinh).Ok?
    requires i < imr.rows && j < imr.cols
    requires imr.px[i][j] <= 0.0 && img.px[i][j] <= 0.0 && imb.px[i][j] <= 0.0
    requires 0.0 <= GridMax(imr) && 0.0 <= GridMax(img) && 0.0 <= GridMax(imb)
    ensures var out := ColorImage(imr, img, imb, nonlinear, scales, satval, asinh).value;
      out.Valid() && out.rows == imr.rows && out.cols == imr.cols && out.px[i][j] == Rgb(0.0, 0.0, 0.0)
  {
    ColorImageShape(imr, img, imb, nonlinear, scales, satval, asinh);
    var t := Factors(scales).value;
    ScaledBlack(imr, img, imb, t, i, j);
    var c := ScaleChannels(ClipChannels(imr, img, imb), t);
    assert Prepared(imr, img, imb, scales, satval) == SaturFix(c, satval);
    SaturFixBlack(c, satval, i, j);
    StretchedBlack(Prepared(imr, img, imb, scales, satval).value, nonlinear, asinh, i, j);
  }

  /** Hue preservation: every output pixel is the prepared channels at that pixel times
      one shared factor. */
  lemma HuePreserved(imr: Grid<real>, img: Grid<real>, imb: Grid<real>, nonlinear: real,
                     scales: Option<seq<real>>, satval: Option<real>, asinh: real -> real,
                     i: nat, j: nat)
    requires imr.Valid() && img.Valid() && imb.Valid()
    requires ColorImage(imr, img, imb, nonlinear, scales, satval, asinh).Ok?
    requires i < imr.rows && j < imr.cols
    ensures Prepared(imr, img, imb, scales, satval).Ok?
    ensures var c, out := Prepared(imr, img, imb, scales, satval).value,
                          ColorImage(imr, img, imb, nonlinear, scales, satval, asinh).value;
      c.Valid() && i < c.r.rows && j < c.r.cols && out.Valid() && i < out.rows && j < out.cols &&
      exists f: real :: ScaledBy(out.px[i][j], f, c.Pixel(i, j))
  {
    ColorImageShape(imr, img, imb, nonlinear, scales, satval, asinh);
    var c := Prepared(imr, img, imb, scales, satval).value;
    StretchedAt(c, nonlinear, asinh, i, j);
    var f := RgbSatur(c, Stretch(c, nonlinear, asinh)).value;
    assert ScaledBy(Stretched(c, nonlinear, asinh).value.px[i][j], f.px[i][j], c.Pixel(i, j));
  }

  /** The asinh factor is positive when arcsinh is positive on positive numbers. */
  lemma StretchPositive(r: real, g: real, b: real, nonlinear: real, asinh: real -> real)
    requires nonlinear != 0.0
    requires forall x: real :: x > 0.0 ==> asinh(x) > 0.0
    ensures 0.0 < StretchValue(r, g, b, nonlinear, asinh)
  {
    var v := Intensity(r, g, b, nonlinear);
    RatioPositive(asinh(v), v);
  }

  /** A non-negative value times a non-negative factor is non-negative. */
  lemma ScaleNonNegative(x: real, s: real)
    requires 0.0 <= x && 0.0 <= s
    ensures 0.0 <= Scale(x, s)
  {
  }

  /** Clipping each input to [0, max] with a non-negative maximum gives non-negative channels. */
  lemma ClippedNonNegative(imr: Grid<real>, img: Grid<real>, imb: Grid<real>)
    requires imr.Valid() && img.Valid() && imb.Valid() && SameShape3(imr, img, imb)
    requires imr.rows > 0 && imr.cols > 0
    requires 0.0 <= GridMax(imr) && 0.0 <= GridMax(img) && 0.0 <= GridMax(imb)
    ensures ClipChannels(imr, img, imb).Valid() && ClipChannels(imr, img, imb).NonNegative()
  {
    ClipGridNonNegative(imr);
    ClipGridNonNegative(img);
    ClipGridNonNegative(imb);
  }

  /** One channel of `ClippedNonNegative`. */
  lemma ClipGridNonNegative(a: Grid<real>)
    requires a.Valid() && a.rows > 0 && a.cols > 0 && 0.0 <= GridMax(a)
    ensures forall i, j :: 0 <= i < a.rows && 0 <= j < a.cols ==> 0.0 <= ClipGrid(a, GridMax(a)).px[i][j]
  {
  }

  /** Non-negative scales keep non-negative channels non-negative. */
  lemma ScaledChannelsNonNegative(k: Channels, scales: Option<Rgb<real>>)
    requires k.Valid() && k.NonNegative()
    requires scales.Some? ==> 0.0 <= scales.value.r && 0.0 <= scales.value.g && 0.0 <= scales.value.b
    ensures ScaleChannels(k, scales).Valid() && SameShape(ScaleChannels(k, scales).r, k.r)
    ensures ScaleChannels(k, scales).NonNegative()
  {
    if scales.Some? {
      var c := ScaleChannels(k, scales);
      forall i, j | 0 <= i < k.r.rows && 0 <= j < k.r.cols
        ensures 0.0 <= c.r.px[i][j] && 0.0 <= c.g.px[i][j] && 0.0 <= c.b.px[i][j]
      {
        ScaleNonNegative(k.r.px[i][j], scales.value.r);
        ScaleNonNegative(k.g.px[i][j], scales.value.g);
        ScaleNonNegative(k.b.px[i][j], scales.value.b);
      }
    }
  }

  /** Without `satval`, the colour image is the stretch of the clipped, scaled inputs. */
  lemma ColorImageWithoutSatval(imr: Grid<real>, img: Grid<real>, imb: Grid<real>, nonlinear: real,
                                scales: Option<seq<real>>, asinh: real -> real)
    requires imr.Valid() && img.Valid() && imb.Valid() && SameShape3(imr, img, imb)
    requires imr.rows > 0 && imr.cols > 0 && Factors(scales).Ok?
    ensures ColorImage(imr, img, imb, nonlinear, scales, None, asinh) ==
            Stretched(ScaleChannels(ClipChannels(imr, img, imb), Factors(scales).value), nonlinear, asinh)
  {
  }

  /** The stretch of non-negative channels lies in [0, 1] when `_get_max_image` is exact
      and the saturation fix acts. */
  lemma StretchedInUnitRange(c: Channels, nonlinear: real, asinh: real -> real)
    requires c.Valid() && nonlinear != 0.0 && NoSinglePixelStage(c)
    requires forall x: real :: x > 0.0 ==> asinh(x) > 0.0
    requires c.NonNegative()
    requires Count(SaturMask(c, Stretch(c, nonlinear, asinh))) != 1
    ensures Stretched(c, nonlinear, asinh).Ok?
    ensures var out := Stretched(c, nonlinear, asinh).value;
      SameShape(out, c.r) && InUnitRange(out)
  {
    var fac := Stretch(c, nonlinear, asinh);
    forall i, j | 0 <= i < c.r.rows && 0 <= j < c.r.cols
      ensures 0.0 < fac.px[i][j]
    {
      StretchPositive(c.r.px[i][j], c.g.px[i][j], c.b.px[i][j], nonlinear, asinh);
    }
    RgbSaturBound(c, fac);
    var f := RgbSatur(c, fac).value;
    assert Stretched(c, nonlinear, asinh) == Ok(Compose(c, f));
    ComposeInUnitRange(c, f);
  }

  /** Under the conditions in which `_get_max_image` is exact and the saturation fix
      acts (no stage with exactly one pixel), with non-negative scales, inputs whose
      maxima are non-negative and an `arcsinh` positive on positive numbers, every
      output value lies in [0, 1], so the image can be byte-scaled. */
  lemma ColorImageInUnitRange(imr: Grid<real>, img: Grid<real>, imb: Grid<real>, nonlinear: real,
                              scales: Option<seq<real>>, asinh: real -> real)
    requires imr.Valid() && img.Valid() && imb.Valid() && SameShape3(imr, img, imb)
    requires imr.rows > 0 && imr.cols > 0 && nonlinear != 0.0
    requires 0.0 <= GridMax(imr) && 0.0 <= GridMax(img) && 0.0 <= GridMax(imb)
    requires scales.Some? ==>
      |scales.value| >= 3 && 0.0 <= scales.value[0] && 0.0 <= scales.value[1] && 0.0 <= scales.value[2]
    requires forall x: real :: x > 0.0 ==> asinh(x) > 0.0
    requires var c := ScaleChannels(ClipChannels(imr, img, imb), Factors(scales).value);
      c.Valid() && NoSinglePixelStage(c) && Count(SaturMask(c, Stretch(c, nonlinear, asinh))) != 1
    ensures ColorImage(imr, img, imb, nonlinear, scales, None, asinh).Ok?
    ensures var out := ColorImage(imr, img, imb, nonlinear, scales, None, asinh).value;
      out.Valid() && InUnitRange(out)
  {
    var t := Factors(scales).value;
    var c := ScaleChannels(ClipChannels(imr, img, imb), t);
    ClippedNonNegative(imr, img, imb);
    ScaledChannelsNonNegative(ClipChannels(imr, img, imb), t);
    StretchedInUnitRange(c, nonlinear, asinh);
    ColorImageWithoutSatval(imr, img, imb, nonlinear, scales, asinh);
  }

  /** The stretch of a uniform grey image whose stretched value exceeds one is white. */
  lemma StretchedUniform(n: Grid<real>, v: real, nonlinear: real, asinh: real -> real)
    requires n.Valid() && n.rows > 0 && n.cols > 1 && v > 0.0 && nonlinear != 0.0
    requires forall i, j :: 0 <= i < n.rows && 0 <= j < n.cols ==> n.px[i][j] == v
    requires Scale(v, StretchValue(v, v, v, nonlinear, asinh)) > 1.0
    ensures Stretched(Channels(n, n, n), nonlinear, asinh) == Ok(White(n.rows, n.cols))
  {
    var c := Channels(n, n, n);
    var fac := Stretch(c, nonlinear, asinh);
    MaxStageNoop(n, n);
    var w := SaturMask(c, fac);
    CountAtLeastTwo(w, 0, 0, 0, 1);
    var f := RgbSatur(c, fac).value;
    CapBelow(v, v, 1.0);
    assert forall i, j :: 0 <= i < n.rows && 0 <= j < n.cols ==> f.px[i][j] == Ratio(1.0, v);
    Ext(Compose(c, f), White(n.rows, n.cols));
  }

  /** Clipping a uniform positive image to its maximum leaves it as it is. */
  lemma ClipUniform(n: Grid<real>, v: real)
    requires n.Valid() && n.rows > 0 && n.cols > 0 && v > 0.0
    requires forall i, j :: 0 <= i < n.rows && 0 <= j < n.cols ==> n.px[i][j] == v
    ensures ClipGrid(n, GridMax(n)) == n
  {
    assert GridMax(n) == v;
    Ext(ClipGrid(n, GridMax(n)), n);
  }

  /** A uniform grey image whose stretched value exceeds one comes out white (every
      pixel (1, 1, 1), which `WhiteBytes` byte-scales to (255, 255, 255)). */
  lemma UniformSaturatesToWhite(n: Grid<real>, v: real, nonlinear: real, asinh: real -> real)
    requires n.Valid() && n.rows > 0 && n.cols > 1 && v > 0.0 && nonlinear != 0.0
    requires forall i, j :: 0 <= i < n.rows && 0 <= j < n.cols ==> n.px[i][j] == v
    requires Scale(v, StretchValue(v, v, v, nonlinear, asinh)) > 1.0
    ensures ColorImage(n, n, n, nonlinear, None, None, asinh) == Ok(White(n.rows, n.cols))
  {
    ColorImageOfUniform(n, v, nonlinear, asinh);
    StretchedUniform(n, v, nonlinear, asinh);
  }

  /** Without scales or `satval`, a uniform image reaches the stretch unchanged. */
  lemma ColorImageOfUniform(n: Grid<real>, v: real, nonlinear: real, asinh: real -> real)
    requires n.Valid() && n.rows > 0 && n.cols > 0 && v > 0.0
    requires forall i, j :: 0 <= i < n.rows && 0 <= j < n.cols ==> n.px[i][j] == v
    ensures ColorImage(n, n, n, nonlinear, None, None, asinh) == Stretched(Channels(n, n, n), nonlinear, asinh)
  {
    ClipUniform(n, v);
    ColorImageWithoutSatval(n, n, n, nonlinear, None, asinh);
    assert ClipChannels(n, n, n) == Channels(n, n, n);
  }

  /** An all-white colour image lies in [0, 1] and byte-scales to all 255. */
  lemma WhiteBytes(rows: nat, cols: nat)
    ensures InUnitRange(White(rows, cols))
    ensures forall i, j :: 0 <= i < rows && 0 <= j < cols ==>
      ByteScaleImage(White(rows, cols)).px[i][j] == Rgb(255, 255, 255)
  {
    var out := White(rows, cols);
    assert InUnitRange(out);
    var bytes := ByteScaleImage(out);
    assert ByteScale(1.0) == 255;
    forall i, j | 0 <= i < rows && 0 <= j < cols
      ensures bytes.px[i][j] == Rgb(255, 255, 255)
    {
      assert out.px[i][j] == Rgb(1.0, 1.0, 1.0);
    }
  }

  // ===========================================================================
  // The in-place kernels over arrays

  function Chan(r: array2<real>, g: array2<real>, b: array2<real>): Channels
    reads r, g, b
  {
    Channels(Snapshot(r), Snapshot(g), Snapshot(b))
  }

  predicate SameLengths<S, T>(a: array2<S>, b: array2<T>) {
    a.Length0 == b.Length0 && a.Length1 == b.Length1
  }

  /** `a.copy()`, `a.astype('f4')`. */
  method CopyOf(a: array2<real>) returns (c: array2<real>)
    ensures fresh(c) && Snapshot(c) == Snapshot(a)
  {
    c := new real[a.Length0, a.Length1];
    var i := 0;
    while i < a.Length0
      invariant 0 <= i <= a.Length0
      invariant forall p, q :: 0 <= p < i && 0 <= q < a.Length1 ==> c[p, q] == a[p, q]
    {
      var j := 0;
      while j < a.Length1
        invariant 0 <= j <= a.Length1
        invariant forall p, q :: 0 <= p < i && 0 <= q < a.Length1 ==> c[p, q] == a[p, q]
        invariant forall q :: 0 <= q < j ==> c[i, q] == a[i, q]
      {
        c[i, j] := a[i, j];
        j := j + 1;
      }
      i := i + 1;
    }
    Ext(Snapshot(c), Snapshot(a));
  }

  /** `a.max()` for a non-empty array. */
  method ArrayMax(a: array2<real>) returns (m: real)
    requires a.Length0 > 0 && a.Length1 > 0
    ensures m == GridMax(Snapshot(a))
  {
    m := a[0, 0];
    ghost var pi, pj := 0, 0;
    var i := 0;
    while i < a.Length0
      invariant 0 <= i <= a.Length0
      invariant 0 <= pi < a.Length0 && 0 <= pj < a.Length1 && a[pi, pj] == m
      invariant forall p, q :: 0 <= p < i && 0 <= q < a.Length1 ==> a[p, q] <= m
    {
      var j := 0;
      while j < a.Length1
        invariant 0 <= j <= a.Length1
        invariant 0 <= pi < a.Length0 && 0 <= pj < a.Length1 && a[pi, pj] == m
        invariant forall p, q :: 0 <= p < i && 0 <= q < a.Length1 ==> a[p, q] <= m
        invariant forall q :: 0 <= q < j ==> a[i, q] <= m
      {
        if a[i, j] > m {
          m := a[i, j];
          pi, pj := i, j;
        }
        j := j + 1;
      }
      i := i + 1;
    }
    var g := Snapshot(a);
    var top := GridMax(g);
    assert g.px[pi][pj] == m;
  }

  /** `a.clip(0., hi, a)`. */
  method ClipInPlace(a: array2<real>, hi: real)
    modifies a
    ensures Snapshot(a) == ClipGrid(old(Snapshot(a)), hi)
  {
    ghost var a0 := Snapshot(a);
    var i := 0;
    while i < a.Length0
      invariant 0 <= i <= a.Length0
      invariant forall p, q :: 0 <= p < i && 0 <= q < a.Length1 ==>
        a[p, q] == ClipValue(a0.px[p][q], hi)
      invariant forall p, q :: i <= p < a.Length0 && 0 <= q < a.Length1 ==> a[p, q] == a0.px[p][q]
    {
      ClipInPlaceRow(a, hi, i);
      i := i + 1;
    }
    Ext(Snapshot(a), ClipGrid(a0, hi));
  }

  /** Row `i` of `ClipInPlace`. */
  method ClipInPlaceRow(a: array2<real>, hi: real, i: nat)
    requires i < a.Length0
    modifies a
    ensures forall p, q :: 0 <= p < a.Length0 && 0 <= q < a.Length1 ==>
      a[p, q] == if p == i then ClipValue(old(a[p, q]), hi) else old(a[p, q])
  {
    var j := 0;
    while j < a.Length1
      invariant 0 <= j <= a.Length1
      invariant forall p, q :: 0 <= p < a.Length0 && 0 <= q < a.Length1 ==>
        a[p, q] == if p == i && q < j then ClipValue(old(a[p, q]), hi) else old(a[p, q])
    {
      a[i, j] := ClipValue(a[i, j], hi);
      j := j + 1;
    }
  }

  /** `a *= s`. */
  method ScaleInPlace(a: array2<real>, s: real)
    modifies a
    ensures Snapshot(a) == ScaleGrid(old(Snapshot(a)), s)
  {
    ghost var a0 := Snapshot(a);
    var i := 0;
    while i < a.Length0
      invariant 0 <= i <= a.Length0
      invariant forall p, q :: 0 <= p < i && 0 <= q < a.Length1 ==>
        a[p, q] == Scale(a0.px[p][q], s)
      invariant forall p, q :: i <= p < a.Length0 && 0 <= q < a.Length1 ==> a[p, q] == a0.px[p][q]
    {
      ScaleInPlaceRow(a, s, i);
      i := i + 1;
    }
    Ext(Snapshot(a), ScaleGrid(a0, s));
  }

  /** Row `i` of `ScaleInPlace`. */
  method ScaleInPlaceRow(a: array2<real>, s: real, i: nat)
    requires i < a.Length0
    modifies a
    ensures forall p, q :: 0 <= p < a.Length0 && 0 <= q < a.Length1 ==>
      a[p, q] == if p == i then Scale(old(a[p, q]), s) else old(a[p, q])
  {
    var j := 0;
    while j < a.Length1
      invariant 0 <= j <= a.Length1
      invariant forall p, q :: 0 <= p < a.Length0 && 0 <= q < a.Length1 ==>
        a[p, q] == if p == i && q < j then Scale(old(a[p, q]), s) else old(a[p, q])
    {
      a[i, j] := Scale(a[i, j], s);
      j := j + 1;
    }
  }

  /** The boolean array `a > b`. */
  method GreaterMask(a: array2<real>, b: array2<real>) returns (w: array2<bool>)
    requires SameLengths(a, b)
    ensures fresh(w) && Snapshot(w) == Greater(Snapshot(a), Snapshot(b))
  {
    w := new bool[a.Length0, a.Length1];
    var i := 0;
    while i < a.Length0
      invariant 0 <= i <= a.Length0
      invariant forall p, q :: 0 <= p < i && 0 <= q < a.Length1 ==> w[p, q] == (a[p, q] > b[p, q])
    {
      var j := 0;
      while j < a.Length1
        invariant 0 <= j <= a.Length1
        invariant forall p, q :: 0 <= p < i && 0 <= q < a.Length1 ==> w[p, q] == (a[p, q] > b[p, q])
        invariant forall q :: 0 <= q < j ==> w[i, q] == (a[i, q] > b[i, q])
      {
        w[i, j] := a[i, j] > b[i, j];
        j := j + 1;
      }
      i := i + 1;
    }
    Ext(Snapshot(w), Greater(Snapshot(a), Snapshot(b)));
  }

  /** The boolean array `m > t`. */
  method AboveMask(m: array2<real>, t: real) returns (w: array2<bool>)
    ensures fresh(w) && Snapshot(w) == Above(Snapshot(m), t)
  {
    w := new bool[m.Length0, m.Length1];
    var i := 0;
    while i < m.Length0
      invariant 0 <= i <= m.Length0
      invariant forall p, q :: 0 <= p < i && 0 <= q < m.Length1 ==> w[p, q] == (m[p, q] > t)
    {
      var j := 0;
      while j < m.Length1
        invariant 0 <= j <= m.Length1
        invariant forall p, q :: 0 <= p < i && 0 <= q < m.Length1 ==> w[p, q] == (m[p, q] > t)
        invariant forall q :: 0 <= q < j ==> w[i, q] == (m[i, q] > t)
      {
        w[i, j] := m[i, j] > t;
        j := j + 1;
      }
      i := i + 1;
    }
    Ext(Snapshot(w), Above(Snapshot(m), t));
  }

  /** The boolean array `(r*f > 1) | (g*f > 1) | (b*f > 1)`. */
  method SaturatedMask(r: array2<real>, g: array2<real>, b: array2<real>, f: array2<real>)
    returns (w: array2<bool>)
    requires SameLengths(r, g) && SameLengths(r, b) && SameLengths(r, f)
    ensures fresh(w) && Snapshot(w) == SaturMask(Chan(r, g, b), Snapshot(f))
  {
    w := new bool[f.Length0, f.Length1];
    var i := 0;
    while i < f.Length0
      invariant 0 <= i <= f.Length0
      invariant forall p, q :: 0 <= p < i && 0 <= q < f.Length1 ==> w[p, q] == Saturated(r[p, q], g[p, q], b[p, q], f[p, q])
    {
      var j := 0;
      while j < f.Length1
        invariant 0 <= j <= f.Length1
        invariant forall p, q :: 0 <= p < i && 0 <= q < f.Length1 ==> w[p, q] == Saturated(r[p, q], g[p, q], b[p, q], f[p, q])
        invariant forall q :: 0 <= q < j ==> w[i, q] == Saturated(r[i, q], g[i, q], b[i, q], f[i, q])
      {
        w[i, j] := Saturated(r[i, j], g[i, j], b[i, j], f[i, j]);
        j := j + 1;
      }
      i := i + 1;
    }
    Ext(Snapshot(w), SaturMask(Chan(r, g, b), Snapshot(f)));
  }

  /** `a[w] = src[w]`. */
  method AssignWhere(a: array2<real>, w: array2<bool>, src: array2<real>)
    requires SameLengths(a, w) && SameLengths(a, src) && a != src
    modifies a
    ensures Snapshot(a) == Select(old(Snapshot(w)), old(Snapshot(src)), old(Snapshot(a)))
  {
    ghost var a0, w0, s0 := Snapshot(a), Snapshot(w), Snapshot(src);
    var i := 0;
    while i < a.Length0
      invariant 0 <= i <= a.Length0
      invariant forall p, q :: 0 <= p < i && 0 <= q < a.Length1 ==>
        a[p, q] == if w[p, q] then src[p, q] else a0.px[p][q]
      invariant forall p, q :: i <= p < a.Length0 && 0 <= q < a.Length1 ==> a[p, q] == a0.px[p][q]
    {
      AssignWhereRow(a, w, src, i);
      i := i + 1;
    }
    Ext(Snapshot(a), Select(w0, s0, a0));
  }

  /** Row `i` of `AssignWhere`. */
  method AssignWhereRow(a: array2<real>, w: array2<bool>, src: array2<real>, i: nat)
    requires SameLengths(a, w) && SameLengths(a, src) && a != src
    requires i < a.Length0
    modifies a
    ensures forall p, q :: 0 <= p < a.Length0 && 0 <= q < a.Length1 ==>
      a[p, q] == if p == i && w[p, q] then src[p, q] else old(a[p, q])
  {
    var j := 0;
    while j < a.Length1
      invariant 0 <= j <= a.Length1
      invariant forall p, q :: 0 <= p < a.Length0 && 0 <= q < a.Length1 ==>
        a[p, q] == if p == i && q < j && w[p, q] then src[p, q] else old(a[p, q])
    {
      if w[i, j] {
        a[i, j] := src[i, j];
      }
      j := j + 1;
    }
  }

  /** Whether some selected pixel has a zero maximum. */
  method ZeroWhere(w: array2<bool>, m: array2<real>) returns (z: bool)
    requires SameLengths(m, w)
    ensures z == !NoZeroWhere(Snapshot(w), Snapshot(m))
  {
    z := false;
    var i := 0;
    while i < m.Length0
      invariant 0 <= i <= m.Length0
      invariant !z <==> forall p, q :: 0 <= p < i && 0 <= q < m.Length1 && w[p, q] ==> m[p, q] != 0.0
    {
      var j := 0;
      while j < m.Length1
        invariant 0 <= j <= m.Length1
        invariant !z <==> (forall p, q :: 0 <= p < i && 0 <= q < m.Length1 && w[p, q] ==> m[p, q] != 0.0) &&
                          (forall q :: 0 <= q < j && w[i, q] ==> m[i, q] != 0.0)
      {
        if w[i, j] && m[i, j] == 0.0 {
          z := true;
        }
        j := j + 1;
      }
      i := i + 1;
    }
  }

  /** `a[w] *= t / m[w]`. */
  method ScaleWhereInPlace(a: array2<real>, w: array2<bool>, m: array2<real>, t: real)
    requires SameLengths(a, w) && SameLengths(a, m) && a != m
    modifies a
    ensures Snapshot(a) == ScaleWhere(old(Snapshot(a)), old(Snapshot(w)), old(Snapshot(m)), t)
  {
    ghost var a0, w0, m0 := Snapshot(a), Snapshot(w), Snapshot(m);
    var i := 0;
    while i < a.Length0
      invariant 0 <= i <= a.Length0
      invariant forall p, q :: 0 <= p < i && 0 <= q < a.Length1 ==>
        a[p, q] == if w[p, q] then Scale(a0.px[p][q], Ratio(t, m[p, q])) else a0.px[p][q]
      invariant forall p, q :: i <= p < a.Length0 && 0 <= q < a.Length1 ==> a[p, q] == a0.px[p][q]
    {
      ScaleWhereInPlaceRow(a, w, m, t, i);
      i := i + 1;
    }
    Ext(Snapshot(a), ScaleWhere(a0, w0, m0, t));
  }

  /** Row `i` of `ScaleWhereInPlace`. */
  method ScaleWhereInPlaceRow(a: array2<real>, w: array2<bool>, m: array2<real>, t: real, i: nat)
    requires SameLengths(a, w) && SameLengths(a, m) && a != m
    requires i < a.Length0
    modifies a
    ensures forall p, q :: 0 <= p < a.Length0 && 0 <= q < a.Length1 ==>
      a[p, q] == if p == i && w[p, q] then Scale(old(a[p, q]), Ratio(t, m[p, q])) else old(a[p, q])
  {
    var j := 0;
    while j < a.Length1
      invariant 0 <= j <= a.Length1
      invariant forall p, q :: 0 <= p < a.Length0 && 0 <= q < a.Length1 ==>
        a[p, q] == if p == i && q < j && w[p, q] then Scale(old(a[p, q]), Ratio(t, m[p, q])) else old(a[p, q])
    {
      if w[i, j] {
        a[i, j] := Scale(a[i, j], Ratio(t, m[i, j]));
      }
      j := j + 1;
    }
  }

  /** `a[w] = t`. */
  method FillWhereInPlace(a: array2<real>, w: array2<bool>, t: real)
    requires SameLengths(a, w)
    modifies a
    ensures Snapshot(a) == FillWhere(old(Snapshot(a)), old(Snapshot(w)), t)
  {
    ghost var a0, w0 := Snapshot(a), Snapshot(w);
    var i := 0;
    while i < a.Length0
      invariant 0 <= i <= a.Length0
      invariant forall p, q :: 0 <= p < i && 0 <= q < a.Length1 ==>
        a[p, q] == if w[p, q] then t else a0.px[p][q]
      invariant forall p, q :: i <= p < a.Length0 && 0 <= q < a.Length1 ==> a[p, q] == a0.px[p][q]
    {
      FillWhereInPlaceRow(a, w, t, i);
      i := i + 1;
    }
    Ext(Snapshot(a), FillWhere(a0, w0, t));
  }

  /** Row `i` of `FillWhereInPlace`. */
  method FillWhereInPlaceRow(a: array2<real>, w: array2<bool>, t: real, i: nat)
    requires SameLengths(a, w)
    requires i < a.Length0
    modifies a
    ensures forall p, q :: 0 <= p < a.Length0 && 0 <= q < a.Length1 ==>
      a[p, q] == if p == i && w[p, q] then t else old(a[p, q])
  {
    var j := 0;
    while j < a.Length1
      invariant 0 <= j <= a.Length1
      invariant forall p, q :: 0 <= p < a.Length0 && 0 <= q < a.Length1 ==>
        a[p, q] == if p == i && q < j && w[p, q] then t else old(a[p, q])
    {
      if w[i, j] {
        a[i, j] := t;
      }
      j := j + 1;
    }
  }

  /** `a[w] = 1.0 / m[w]`. */
  method RecipWhereInPlace(a: array2<real>, w: array2<bool>, m: array2<real>)
    requires SameLengths(a, w) && SameLengths(a, m) && a != m
    modifies a
    ensures Snapshot(a) == RecipWhere(old(Snapshot(a)), old(Snapshot(w)), old(Snapshot(m)))
  {
    ghost var a0, w0, m0 := Snapshot(a), Snapshot(w), Snapshot(m);
    var i := 0;
    while i < a.Length0
      invariant 0 <= i <= a.Length0
      invariant forall p, q :: 0 <= p < i && 0 <= q < a.Length1 ==> a[p, q] == if w[p, q] then Ratio(1.0, m[p, q]) else a0.px[p][q]
      invariant forall p, q :: i <= p < a.Length0 && 0 <= q < a.Length1 ==> a[p, q] == a0.px[p][q]
    {
      RecipWhereRow(a, w, m, i);
      i := i + 1;
    }
    Ext(Snapshot(a), RecipWhere(a0, w0, m0));
  }

  /** Row `i` of `RecipWhereInPlace`. */
  method RecipWhereRow(a: array2<real>, w: array2<bool>, m: array2<real>, i: nat)
    requires SameLengths(a, w) && SameLengths(a, m) && a != m && i < a.Length0
    modifies a
    ensures forall p, q :: 0 <= p < a.Length0 && 0 <= q < a.Length1 ==>
      a[p, q] == if p == i && w[p, q] then Ratio(1.0, m[p, q]) else old(a[p, q])
  {
    var j := 0;
    while j < a.Length1
      invariant 0 <= j <= a.Length1
      invariant forall p, q :: 0 <= p < a.Length0 && 0 <= q < a.Length1 ==>
        a[p, q] == if p == i && q < j && w[p, q] then Ratio(1.0, m[p, q]) else old(a[p, q])
    {
      if w[i, j] {
        a[i, j] := Ratio(1.0, m[i, j]);
      }
      j := j + 1;
    }
  }

  /** `_get_max_image`: works on a copy of `im1` and leaves its inputs untouched. */
  method GetMaxImage(im1: array2<real>, im2: array2<real>, im3: array2<real>) returns (m: array2<real>)
    requires SameLengths(im1, im2) && SameLengths(im1, im3)
    ensures fresh(m) && Snapshot(m) == MaxImage(old(Snapshot(im1)), old(Snapshot(im2)), old(Snapshot(im3)))
  {
    m := CopyOf(im1);
    MaxStageInPlace(m, im2);
    MaxStageInPlace(m, im3);
  }

  /** One stage of `_get_max_image`, updating `m` in place. */
  method MaxStageInPlace(m: array2<real>, im: array2<real>)
    requires SameLengths(m, im) && m != im
    modifies m
    ensures Snapshot(m) == MaxStage(old(Snapshot(m)), old(Snapshot(im)))
  {
    var w := GreaterMask(im, m);
    var n := CountTrue(w);
    if n > 1 {
      AssignWhere(m, w, im);
    }
  }

  /** `_fix_hard_satur`: scales the three channels in place and returns the maximum
      image. When numpy would divide by a zero maximum the arrays are left as they were
      and the model reports `NonFiniteFactor`. */
  method FixHardSatur(r: array2<real>, g: array2<real>, b: array2<real>, satval: real)
    returns (res: Result<array2<real>>)
    requires SameLengths(r, g) && SameLengths(r, b) && r != g && r != b && g != b
    modifies r, g, b
    ensures var spec := HardSatur(old(Chan(r, g, b)), satval);
      (spec.Err? ==> res == Err(spec.error) && unchanged(r, g, b)) &&
      (spec.Ok? ==> res.Ok? && fresh(res.value) && Chan(r, g, b) == spec.value.0 &&
                    Snapshot(res.value) == spec.value.1)
  {
    ghost var c := Chan(r, g, b);
    var m, w, n := HardSaturMask(r, g, b, satval);
    ghost var mx, sel := Snapshot(m), Snapshot(w);
    if n <= 1 {
      assert HardSatur(c, satval) == Ok((c, mx));
      return Ok(m);
    }
    var zero := ZeroWhere(w, m);
    if zero {
      assert HardSatur(c, satval) == Err(NonFiniteFactor);
      return Err(NonFiniteFactor);
    }
    HardSaturRescales(c, satval);
    ApplyHardSatur(r, g, b, m, w, satval);
    return Ok(m);
  }

  /** The maximum image of `_fix_hard_satur`, the pixels above `satval` and their number. */
  method HardSaturMask(r: array2<real>, g: array2<real>, b: array2<real>, satval: real)
    returns (m: array2<real>, w: array2<bool>, n: nat)
    requires SameLengths(r, g) && SameLengths(r, b)
    ensures fresh(m) && fresh(w)
    ensures Snapshot(m) == MaxImage(Snapshot(r), Snapshot(g), Snapshot(b))
    ensures Snapshot(w) == Above(Snapshot(m), satval) && n == Count(Snapshot(w))
  {
    m := GetMaxImage(r, g, b);
    w := AboveMask(m, satval);
    n := CountTrue(w);
  }

  /** The branch of `_fix_hard_satur` that rescales: the channels are scaled where `w`
      selects and the maximum image `m` is set to `satval` there. */
  method ApplyHardSatur(r: array2<real>, g: array2<real>, b: array2<real>, m: array2<real>,
                        w: array2<bool>, satval: real)
    requires SameLengths(r, g) && SameLengths(r, b) && SameLengths(r, w) && SameLengths(r, m)
    requires r != g && r != b && g != b && m != r && m != g && m != b
    modifies r, g, b, m
    ensures var w0, m0 := old(Snapshot(w)), old(Snapshot(m));
      Chan(r, g, b) == Channels(ScaleWhere(old(Snapshot(r)), w0, m0, satval),
                                ScaleWhere(old(Snapshot(g)), w0, m0, satval),
                                ScaleWhere(old(Snapshot(b)), w0, m0, satval)) &&
      Snapshot(m) == FillWhere(m0, w0, satval)
  {
    RescaleChannels(r, g, b, w, m, satval);
    ghost var d := Chan(r, g, b);
    FillWhereInPlace(m, w, satval);
    assert Chan(r, g, b) == d;
  }

  /** `r[w] *= t/m[w]`, `g[w] *= t/m[w]`, `b[w] *= t/m[w]`. */
  method RescaleChannels(r: array2<real>, g: array2<real>, b: array2<real>, w: array2<bool>,
                         m: array2<real>, t: real)
    requires SameLengths(r, g) && SameLengths(r, b) && SameLengths(r, w) && SameLengths(r, m)
    requires r != g && r != b && g != b && m != r && m != g && m != b
    modifies r, g, b
    ensures var w0, m0 := old(Snapshot(w)), old(Snapshot(m));
      Chan(r, g, b) == Channels(ScaleWhere(old(Snapshot(r)), w0, m0, t),
                                ScaleWhere(old(Snapshot(g)), w0, m0, t),
                                ScaleWhere(old(Snapshot(b)), w0, m0, t))
  {
    ScaleWhereInPlace(r, w, m, t);
    ScaleWhereInPlace(g, w, m, t);
    ScaleWhereInPlace(b, w, m, t);
  }

  /** `_fix_rgb_satur`: rewrites the factor array in place. When numpy would divide by
      a zero maximum the factor is left as it was and the result is false. */
  method FixRgbSatur(r: array2<real>, g: array2<real>, b: array2<real>, fac: array2<real>)
    returns (ok: bool)
    requires SameLengths(r, g) && SameLengths(r, b) && SameLengths(r, fac)
    requires fac != r && fac != g && fac != b
    modifies fac
    ensures var spec := RgbSatur(Chan(r, g, b), old(Snapshot(fac)));
      (ok <==> spec.Ok?) && (ok ==> Snapshot(fac) == spec.value) && (!ok ==> unchanged(fac))
  {
    ghost var c := Chan(r, g, b);
    ghost var f0 := Snapshot(fac);
    var m := GetMaxImage(r, g, b);
    ghost var mx := Snapshot(m);
    var w := SaturatedMask(r, g, b, fac);
    ghost var sel := Snapshot(w);
    assert mx == MaxImage(c.r, c.g, c.b) && sel == SaturMask(c, f0);
    var n := CountTrue(w);
    if n <= 1 {
      assert RgbSatur(c, f0) == Ok(f0);
      return true;
    }
    var zero := ZeroWhere(w, m);
    if zero {
      assert RgbSatur(c, f0) == Err(NonFiniteFactor);
      return false;
    }
    RecipWhereInPlace(fac, w, m);
    assert RgbSatur(c, f0) == Ok(Snapshot(fac));
    return true;
  }

  /** `I = fac*(r+g+b)`, `I[I <= 0] = 1/3`, `f = arcsinh(I)/I`. */
  method StretchFactor(r: array2<real>, g: array2<real>, b: array2<real>, nonlinear: real,
                       asinh: real -> real) returns (f: array2<real>)
    requires SameLengths(r, g) && SameLengths(r, b) && nonlinear != 0.0
    ensures fresh(f) && Snapshot(f) == Stretch(old(Chan(r, g, b)), nonlinear, asinh)
  {
    var fac := IntensityFactor(nonlinear);
    f := new real[r.Length0, r.Length1];
    var i := 0;
    while i < r.Length0
      invariant 0 <= i <= r.Length0
      invariant forall p, q :: 0 <= p < i && 0 <= q < r.Length1 ==>
        f[p, q] == StretchValue(r[p, q], g[p, q], b[p, q], nonlinear, asinh)
    {
      var j := 0;
      while j < r.Length1
        invariant 0 <= j <= r.Length1
        invariant forall p, q :: 0 <= p < i && 0 <= q < r.Length1 ==>
          f[p, q] == StretchValue(r[p, q], g[p, q], b[p, q], nonlinear, asinh)
        invariant forall q :: 0 <= q < j ==> f[i, q] == StretchValue(r[i, q], g[i, q], b[i, q], nonlinear, asinh)
      {
        var intensity := Scale(r[i, j] + g[i, j] + b[i, j], fac);
        if intensity <= 0.0 {
          intensity := 1.0 / 3.0;
        }
        f[i, j] := Ratio(asinh(intensity), intensity);
        j := j + 1;
      }
      i := i + 1;
    }
    Ext(Snapshot(f), Stretch(Chan(r, g, b), nonlinear, asinh));
  }

  /** `colorim[:, :, k] = channel*f` for the three channels. */
  method ComposeImage(r: array2<real>, g: array2<real>, b: array2<real>, f: array2<real>)
    returns (colorim: array3<real>)
    requires SameLengths(r, g) && SameLengths(r, b) && SameLengths(r, f)
    ensures fresh(colorim) && colorim.Length2 == 3
    ensures ColorSnapshot(colorim) == Compose(old(Chan(r, g, b)), old(Snapshot(f)))
  {
    colorim := new real[r.Length0, r.Length1, 3];
    var i := 0;
    while i < r.Length0
      invariant 0 <= i <= r.Length0
      invariant forall p, q :: 0 <= p < i && 0 <= q < r.Length1 ==>
        colorim[p, q, 0] == Scale(r[p, q], f[p, q]) && colorim[p, q, 1] == Scale(g[p, q], f[p, q]) &&
        colorim[p, q, 2] == Scale(b[p, q], f[p, q])
    {
      var j := 0;
      while j < r.Length1
        invariant 0 <= j <= r.Length1
        invariant forall p, q :: 0 <= p < i && 0 <= q < r.Length1 ==>
          colorim[p, q, 0] == Scale(r[p, q], f[p, q]) && colorim[p, q, 1] == Scale(g[p, q], f[p, q]) &&
          colorim[p, q, 2] == Scale(b[p, q], f[p, q])
        invariant forall q :: 0 <= q < j ==>
          colorim[i, q, 0] == Scale(r[i, q], f[i, q]) && colorim[i, q, 1] == Scale(g[i, q], f[i, q]) &&
          colorim[i, q, 2] == Scale(b[i, q], f[i, q])
      {
        colorim[i, j, 0] := Scale(r[i, j], f[i, j]);
        colorim[i, j, 1] := Scale(g[i, j], f[i, j]);
        colorim[i, j, 2] := Scale(b[i, j], f[i, j]);
        j := j + 1;
      }
      i := i + 1;
    }
    Ext(ColorSnapshot(colorim), Compose(Chan(r, g, b), Snapshot(f)));
  }

  /** A copy of `im` clipped to [0, im.max()]: `im.astype('f4')` then `clip(0., max)`. */
  method ClippedCopy(im: array2<real>) returns (c: array2<real>)
    requires im.Length0 > 0 && im.Length1 > 0
    ensures fresh(c) && Snapshot(c) == ClipGrid(Snapshot(im), GridMax(Snapshot(im)))
  {
    c := CopyOf(im);
    var top := ArrayMax(c);
    ClipInPlace(c, top);
  }

  /** The three clipped working copies. */
  method ClippedCopies(imr: array2<real>, img: array2<real>, imb: array2<real>)
    returns (r: array2<real>, g: array2<real>, b: array2<real>)
    requires imr.Length0 > 0 && imr.Length1 > 0 && img.Length0 > 0 && img.Length1 > 0
    requires imb.Length0 > 0 && imb.Length1 > 0
    ensures fresh(r) && fresh(g) && fresh(b) && r != g && r != b && g != b
    ensures Chan(r, g, b) == ClipChannels(old(Snapshot(imr)), old(Snapshot(img)), old(Snapshot(imb)))
  {
    r := ClippedCopy(imr);
    g := ClippedCopy(img);
    b := ClippedCopy(imb);
  }

  /** `r *= scales[0]`, `g *= scales[1]`, `b *= scales[2]` when scales are given. */
  method ScaleChannelsInPlace(r: array2<real>, g: array2<real>, b: array2<real>,
                              scales: Option<Rgb<real>>)
    requires r != g && r != b && g != b
    modifies r, g, b
    ensures Chan(r, g, b) == ScaleChannels(old(Chan(r, g, b)), scales)
  {
    if scales.Some? {
      ScaleInPlace(r, scales.value.r);
      ScaleInPlace(g, scales.value.g);
      ScaleInPlace(b, scales.value.b);
    }
  }

  /** The first half of `get_color_image`: the three working copies, clipped, scaled
      and, when `satval` is given, corrected for hard saturation. */
  method PrepareChannels(imr: array2<real>, img: array2<real>, imb: array2<real>,
                         scales: Option<seq<real>>, satval: Option<real>)
    returns (res: Result<(array2<real>, array2<real>, array2<real>)>)
    ensures var spec := Prepared(old(Snapshot(imr)), old(Snapshot(img)), old(Snapshot(imb)), scales, satval);
      (spec.Err? ==> res == Err(spec.error)) &&
      (spec.Ok? ==> res.Ok? && fresh(res.value.0) && fresh(res.value.1) && fresh(res.value.2) &&
                    res.value.0 != res.value.1 && res.value.0 != res.value.2 && res.value.1 != res.value.2 &&
                    Chan(res.value.0, res.value.1, res.value.2) == spec.value)
  {
    if imr.Length0 == 0 || imr.Length1 == 0 || img.Length0 == 0 || img.Length1 == 0 ||
       imb.Length0 == 0 || imb.Length1 == 0 {
      return Err(EmptyImage);
    }
    var factors := Factors(scales);
    if factors.Err? {
      return Err(factors.error);
    }
    ghost var sr, sg, sb := Snapshot(imr), Snapshot(img), Snapshot(imb);
    ghost var c := ScaleChannels(ClipChannels(sr, sg, sb), factors.value);
    assert Prepared(sr, sg, sb, scales, satval) == SaturFix(c, satval);
    var r, g, b := ClippedCopies(imr, img, imb);
    ScaleChannelsInPlace(r, g, b, factors.value);
    assert Chan(r, g, b) == c;
    var ok := SaturFixInPlace(r, g, b, satval);
    if ok.Err? {
      return Err(ok.error);
    }
    return Ok((r, g, b));
  }

  /** `_fix_hard_satur` applied when `satval` is given. */
  method SaturFixInPlace(r: array2<real>, g: array2<real>, b: array2<real>, satval: Option<real>)
    returns (res: Result<()>)
    requires r != g && r != b && g != b
    modifies r, g, b
    ensures var spec := SaturFix(old(Chan(r, g, b)), satval);
      (spec.Err? ==> res == Err(spec.error)) && (spec.Ok? ==> res.Ok? && Chan(r, g, b) == spec.value)
  {
    ghost var c := Chan(r, g, b);
    if satval.Some? {
      if !(SameLengths(r, g) && SameLengths(r, b)) {
        assert SaturFix(c, satval) == Err(ShapeMismatch);
        return Err(ShapeMismatch);
      }
      ghost var spec := HardSatur(c, satval.value);
      var hard := FixHardSatur(r, g, b, satval.value);
      if hard.Err? {
        assert SaturFix(c, satval) == Err(spec.error);
        return Err(hard.error);
      }
      assert SaturFix(c, satval) == Ok(spec.value.0);
    }
    return Ok(());
  }

  /** `get_color_image`: works on copies of the three inputs, which it does not modify,
      and returns a new (rows, cols, 3) colour image. A keyword left out is `None`;
      `nonlinear` then defaults to 1.0. */
  method GetColorImage(imr: array2<real>, img: array2<real>, imb: array2<real>, nonlinear: Option<real>,
                       scales: Option<seq<real>>, satval: Option<real>, asinh: real -> real)
    returns (res: Result<array3<real>>)
    ensures var spec := ColorImage(old(Snapshot(imr)), old(Snapshot(img)), old(Snapshot(imb)),
                                   if nonlinear.Some? then nonlinear.value else DefaultNonlinear,
                                   scales, satval, asinh);
      (spec.Err? ==> res == Err(spec.error)) &&
      (spec.Ok? ==> res.Ok? && fresh(res.value) && res.value.Length2 == 3 &&
                    ColorSnapshot(res.value) == spec.value)
  {
    var prepared := PrepareChannels(imr, img, imb, scales, satval);
    if prepared.Err? {
      return Err(prepared.error);
    }
    var (r, g, b) := prepared.value;
    var nl := if nonlinear.Some? then nonlinear.value else DefaultNonlinear;
    res := StretchChannels(r, g, b, nl, asinh);
  }

  /** The stretch, its saturation fix and the composition, on the prepared channels. */
  method StretchChannels(r: array2<real>, g: array2<real>, b: array2<real>, nonlinear: real,
                         asinh: real -> real) returns (res: Result<array3<real>>)
    ensures var spec := Stretched(Chan(r, g, b), nonlinear, asinh);
      (spec.Err? ==> res == Err(spec.error)) &&
      (spec.Ok? ==> res.Ok? && fresh(res.value) && res.value.Length2 == 3 &&
                    ColorSnapshot(res.value) == spec.value)
  {
    if nonlinear == 0.0 {
      return Err(ZeroDivision);
    }
    if !(SameLengths(r, g) && SameLengths(r, b)) {
      return Err(ShapeMismatch);
    }
    ghost var c := Chan(r, g, b);
    var f := StretchFactor(r, g, b, nonlinear, asinh);
    ghost var f0 := Snapshot(f);
    var ok := FixRgbSatur(r, g, b, f);
    if !ok {
      assert RgbSatur(c, f0).Err?;
      return Err(NonFiniteFactor);
    }
    ghost var f1 := Snapshot(f);
    assert RgbSatur(c, f0) == Ok(f1);
    var colorim := ComposeImage(r, g, b, f);
    assert ColorSnapshot(colorim) == Compose(c, f1);
    return Ok(colorim);
  }
}
