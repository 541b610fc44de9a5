/** desimage/imagemaker.py: the per-band image object `ImageTrans` and the
    configuration logic of `RGBImageMaker`, `Files` and `FilesAuto`.

    `ImageTrans` is a class whose methods replace its image and mask; the image
    and mask are `Grid` values, so a method "updating the array" reassigns the
    field. The mask-union loop and the exposure-correction loop of `_get_scales`
    are methods proved against reference functions. The file-name builders are
    functions over the path builders of `FileNames`. */
module ImageMaker {
  import opened Common
  import opened Grids
  import opened Strings
  import Images
  import FileNames

  /** `NOMINAL_EXPTIME`: exposure time, in seconds, the scales are calibrated for. */
  const NominalExptime: real := 900.0

  /** `DEFAULT_CAMPAIGN`. */
  const DefaultCampaign: string := "y6a1_coadd"

  // ===========================================================================
  // ImageTrans.add_image

  /** `(a + b*fac) * 0.5`, pixel by pixel. */
  function Blend(a: Grid<real>, b: Grid<real>, fac: real): (r: Grid<real>)
    requires SameShape(a, b)
    ensures SameShape(r, a)
  {
    Build(a.rows, a.cols, (i: nat, j: nat) requires i < a.rows && j < a.cols =>
      (a.px[i][j] + b.px[i][j] * fac) * 0.5)
  }

  /** The image `add_image` leaves behind, or the exception it raises: the
      exposure ratio fails on a missing exposure time or a zero one of the other
      image, and the in-place sum fails on images of different shapes. */
  function AddResult(a: Grid<real>, ea: Option<real>, b: Grid<real>, eb: Option<real>): (r: Result<Grid<real>>)
    requires a.Valid() && b.Valid()
    ensures r.Ok? <==> ea.Some? && eb.Some? && eb.value != 0.0 && SameShape(a, b)
    ensures r.Ok? ==> SameShape(r.value, a)
  {
    if ea.None? || eb.None? then Err(MissingExptime)
    else if eb.value == 0.0 then Err(ZeroDivision)
    else if !SameShape(a, b) then Err(ShapeMismatch)
    else Ok(Blend(a, b, ea.value / eb.value))
  }

  // ===========================================================================
  // ImageTrans.flip_ud

  /** `numpy.flipud`: the rows in reverse order. */
  function FlipRows<T>(g: Grid<T>): (r: Grid<T>)
    requires g.Valid()
    ensures SameShape(r, g)
    ensures forall i, j :: 0 <= i < g.rows && 0 <= j < g.cols ==> r.px[i][j] == g.px[g.rows - 1 - i][j]
  {
    Grid(g.rows, g.cols, seq(g.rows, (i: int) requires 0 <= i < g.rows => g.px[g.rows - 1 - i]))
  }

  /** Flipping an optional mask, which stays `None` when absent. */
  function FlipMask(m: Option<Grid<real>>): (r: Option<Grid<real>>)
    requires m.Some? ==> m.value.Valid()
    ensures r.Some? <==> m.Some?
    ensures r.Some? ==> SameShape(r.value, m.value)
  {
    if m.Some? then Some(FlipRows(m.value)) else None
  }

  // ===========================================================================
  // ImageTrans.rebin

  /** The dimension after padding: `n` grown by `f - n % f` unless already a multiple. */
  function PadTo(n: nat, f: nat): (m: nat)
    requires f > 0
    ensures m % f == 0 && n <= m < n + f
  {
    if n % f != 0 then
      var m := n + (f - n % f);
      MultipleMod(n / f + 1, f);
      assert m == (n / f + 1) * f;
      m
    else n
  }

  /** A multiple of `f` leaves no remainder. */
  lemma MultipleMod(k: int, f: int)
    requires f > 0
    ensures (k * f) % f == 0
  {
    var d := k - (k * f) / f;
    assert d * f == (k * f) % f;
    Images.MulSign(d, f);
  }

  /** A zero image of the padded shape with the original copied into its top-left corner. */
  function Padded(im: Grid<real>, f: nat): (p: Grid<real>)
    requires im.Valid() && f > 0
    ensures p.Valid() && p.rows == PadTo(im.rows, f) && p.cols == PadTo(im.cols, f)
  {
    Build(PadTo(im.rows, f), PadTo(im.cols, f), (i: nat, j: nat) =>
      if i < im.rows && j < im.cols then im.px[i][j] else 0.0)
  }

  /** The image `ImageTrans.rebin` leaves behind, or the exception it raises.
      `nrows % 0` raises ZeroDivisionError. With a negative factor, Python's
      remainder has the divisor's sign, so padding never grows a dimension: it
      either shrinks one (the copy into the smaller array fails) or leaves the
      shape to `images.rebin`, whose reshape rejects a negative factor. */
  function PadRebin(im: Grid<real>, f: int): (r: Result<Grid<real>>)
    requires im.Valid()
    ensures f == 0 ==> r == Err(ZeroDivision)
    ensures f < 0 ==> r == Err(BadShape)
    ensures f > 0 ==> r.Ok? && r.value.Valid()
    ensures f > 0 ==> r.value.rows * f >= im.rows && (r.value.rows - 1) * f < im.rows
    ensures f > 0 ==> r.value.cols * f >= im.cols && (r.value.cols - 1) * f < im.cols
  {
    if f == 0 then Err(ZeroDivision)
    else if f < 0 then Err(BadShape)
    else
      var p := Padded(im, f);
      var r := Images.Rebin(p, f);
      assert r.value.rows * f == p.rows;
      assert (r.value.rows - 1) * f == p.rows - f;
      assert (r.value.cols - 1) * f == p.cols - f;
      r
  }

  // ===========================================================================
  // ImageTrans

  /** One band's image, its optional bad-pixel mask, its exposure time and its filter. */
  class ImageTrans {
    var image: Grid<real>
    var mask: Option<Grid<real>>
    var exptime: Option<real>
    var band: string

    predicate Valid()
      reads this
    {
      image.Valid() && (mask.Some? ==> mask.value.Valid())
    }

    /** The object as it stands once its FITS image, mask and header have been read. */
    constructor (image: Grid<real>, mask: Option<Grid<real>>, exptime: Option<real>, band: string)
      requires image.Valid() && (mask.Some? ==> mask.value.Valid())
      ensures Valid()
      ensures this.image == image && this.mask == mask && this.exptime == exptime && this.band == band
    {
      this.image := image;
      this.mask := mask;
      this.exptime := exptime;
      this.band := band;
    }

    /** `add_image`: blends the other band's image in after equalising exposure
        times; on an exception nothing has changed. */
    method AddImage(other: ImageTrans) returns (err: Option<Error>)
      requires Valid() && other.Valid()
      modifies this
      ensures Valid()
      ensures var r := AddResult(old(image), old(exptime), old(other.image), old(other.exptime));
        (r.Ok? ==> err.None? && image == r.value) && (r.Err? ==> err == Some(r.error) && image == old(image))
      ensures mask == old(mask) && exptime == old(exptime) && band == old(band)
    {
      var r := AddResult(image, exptime, other.image, other.exptime);
      if r.Err? {
        return Some(r.error);
      }
      image := r.value;
      err := None;
    }

    /** `flip_ud`: reverses the rows of the image and of the mask when there is one. */
    method FlipUd()
      requires Valid()
      modifies this
      ensures Valid()
      ensures image == FlipRows(old(image)) && mask == FlipMask(old(mask))
      ensures exptime == old(exptime) && band == old(band)
    {
      image := FlipRows(image);
      mask := FlipMask(mask);
    }

    /** `rebin`: pads the image with zeros to a multiple of the factor and block-averages
        it; the mask is left as it was. */
    method Rebin(factor: int) returns (err: Option<Error>)
      requires Valid()
      modifies this
      ensures Valid()
      ensures var r := PadRebin(old(image), factor);
        (r.Ok? ==> err.None? && image == r.value) && (r.Err? ==> err == Some(r.error) && image == old(image))
      ensures mask == old(mask) && exptime == old(exptime) && band == old(band)
    {
      var r := PadRebin(image, factor);
      if r.Err? {
        return Some(r.error);
      }
      image := r.value;
      err := None;
    }
  }

  // ---------------------------------------------------------------------------
  // Properties of add_image, flip_ud and rebin

  /** When the other image is the same scene taken with exposure `eb` instead of `ea`
      (every pixel scaled by `eb/ea`), `add_image` gives back the first image: the
      exposure ratio undoes the scaling before the two are averaged. */
  lemma AddImageEqualises(a: Grid<real>, ea: real, b: Grid<real>, eb: real)
    requires SameShape(a, b) && ea != 0.0 && eb != 0.0
    requires forall i, j :: 0 <= i < a.rows && 0 <= j < a.cols ==> b.px[i][j] * ea == a.px[i][j] * eb
    ensures AddResult(a, Some(ea), b, Some(eb)) == Ok(a)
  {
    var r := AddResult(a, Some(ea), b, Some(eb)).value;
    forall i, j | 0 <= i < a.rows && 0 <= j < a.cols
      ensures r.px[i][j] == a.px[i][j]
    {
      Scaled(a.px[i][j], b.px[i][j], ea, eb);
    }
    Ext(r, a);
  }

  lemma Scaled(x: real, y: real, ea: real, eb: real)
    requires ea != 0.0 && eb != 0.0 && y * ea == x * eb
    ensures (x + y * (ea / eb)) * 0.5 == x
  {
    assert y * (ea / eb) == (y * ea) / eb;
    assert (x * eb) / eb == x;
  }

  /** With equal exposure times, each pixel becomes the mean of the two bands. */
  lemma AddImageMean(a: Grid<real>, b: Grid<real>, e: real, i: nat, j: nat)
    requires SameShape(a, b) && e != 0.0 && i < a.rows && j < a.cols
    ensures AddResult(a, Some(e), b, Some(e)).Ok?
    ensures AddResult(a, Some(e), b, Some(e)).value.px[i][j] == (a.px[i][j] + b.px[i][j]) / 2.0
  {
    assert e / e == 1.0;
  }

  /** Flipping twice restores the image, so `flip_ud` loses nothing. */
  lemma FlipRowsInvolution<T>(g: Grid<T>)
    requires g.Valid()
    ensures FlipRows(FlipRows(g)) == g
  {
    var h := FlipRows(FlipRows(g));
    forall i, j | 0 <= i < g.rows && 0 <= j < g.cols
      ensures h.px[i][j] == g.px[i][j]
    {
      assert g.rows - 1 - (g.rows - 1 - i) == i;
    }
    Ext(h, g);
  }

  /** Padding an image whose shape is already a multiple of the factor changes nothing,
      so `ImageTrans.rebin` then agrees with `images.rebin`. */
  lemma RebinDivisible(im: Grid<real>, f: int)
    requires im.Valid() && f > 0 && im.rows % f == 0 && im.cols % f == 0
    ensures Padded(im, f) == im
    ensures PadRebin(im, f) == Images.Rebin(im, f)
  {
    Ext(Padded(im, f), im);
  }

  /** The padded image holds the original in its top-left corner and zeros elsewhere,
      and its shape always passes `images.rebin`'s divisibility test. */
  lemma PaddedContents(im: Grid<real>, f: nat, i: nat, j: nat)
    requires im.Valid() && f > 0
    requires i < PadTo(im.rows, f) && j < PadTo(im.cols, f)
    ensures Padded(im, f).px[i][j] == if i < im.rows && j < im.cols then im.px[i][j] else 0.0
    ensures Images.Rebin(Padded(im, f), f).Ok?
  {
  }

  // ===========================================================================
  // RGBImageMaker._make_imlist: the union of the band masks

  predicate ValidMasks(masks: seq<Option<Grid<real>>>) {
    forall k :: 0 <= k < |masks| && masks[k].Some? ==> masks[k].value.Valid()
  }

  /** Whether some pixel of `m` above zero lies outside `mask`: `mask[w] = 1` then
      indexes out of bounds. */
  predicate MarksOutside(mask: Grid<real>, m: Grid<real>)
    requires m.Valid()
  {
    exists i, j :: 0 <= i < m.rows && 0 <= j < m.cols && m.px[i][j] > 0.0 && (i >= mask.rows || j >= mask.cols)
  }

  /** `mask[np.where(m > 0)] = 1`. */
  function MarkPositive(mask: Grid<real>, m: Grid<real>): (r: Result<Grid<real>>)
    requires mask.Valid() && m.Valid()
    ensures r.Err? <==> MarksOutside(mask, m)
    ensures r.Err? ==> r.error == MaskOutOfBounds
    ensures r.Ok? ==> SameShape(r.value, mask)
  {
    if MarksOutside(mask, m) then Err(MaskOutOfBounds)
    else Ok(Build(mask.rows, mask.cols, (i: nat, j: nat) requires i < mask.rows && j < mask.cols =>
      if i < m.rows && j < m.cols && m.px[i][j] > 0.0 then 1.0 else mask.px[i][j]))
  }

  /** One turn of the loop: band `k`'s mask, if any, starts the union (k = 0) or is
      marked into it; marking into a union that was never started fails. */
  function MergeStep(acc: Result<Option<Grid<real>>>, k: nat, m: Option<Grid<real>>): (r: Result<Option<Grid<real>>>)
    requires acc.Ok? && acc.value.Some? ==> acc.value.value.Valid()
    requires m.Some? ==> m.value.Valid()
    ensures acc.Err? ==> r == acc
    ensures acc.Ok? && r.Err? ==> k > 0 && m.Some?
    ensures acc.Ok? && r.Err? ==> (r.error == NoFirstMask <==> acc.value.None?)
    ensures acc.Ok? && r.Err? && acc.value.Some? ==> MarksOutside(acc.value.value, m.value)
    ensures r.Ok? && r.value.Some? ==> r.value.value.Valid()
    ensures k > 0 && acc.Ok? && acc.value.Some? && r.Ok? ==> r.value.Some? && SameShape(r.value.value, acc.value.value)
  {
    if acc.Err? || m.None? then acc
    else if k == 0 then Ok(m)
    else if acc.value.None? then Err(NoFirstMask)
    else
      match MarkPositive(acc.value.value, m.value)
      case Err(e) => Err(e)
      case Ok(g) => Ok(Some(g))
  }

  /** The merged mask after the loop has seen every band. */
  function Merged(masks: seq<Option<Grid<real>>>): (r: Result<Option<Grid<real>>>)
    requires ValidMasks(masks)
    ensures r.Ok? && r.value.Some? ==> r.value.value.Valid()
  {
    if masks == [] then Ok(None)
    else MergeStep(Merged(masks[..|masks| - 1]), |masks| - 1, masks[|masks| - 1])
  }

  /** An exception ends the loop: every later turn keeps it. */
  lemma {:induction false} MergedErrSticks(masks: seq<Option<Grid<real>>>, n: nat)
    requires ValidMasks(masks) && n <= |masks| && Merged(masks[..n]).Err?
    ensures Merged(masks) == Merged(masks[..n])
    decreases |masks| - n
  {
    if n < |masks| {
      assert masks[..n + 1][..n] == masks[..n];
      MergedErrSticks(masks, n + 1);
    } else {
      assert masks[..n] == masks;
    }
  }

  /** The mask-union loop of `_make_imlist`. The first band's mask is copied (the
      inputs are values, so they never change). */
  method MergeMasks(masks: seq<Option<Grid<real>>>) returns (r: Result<Option<Grid<real>>>)
    requires ValidMasks(masks)
    ensures r == Merged(masks)
  {
    var mask: Option<Grid<real>> := None;
    var i := 0;
    while i < |masks|
      invariant 0 <= i <= |masks|
      invariant mask.Some? ==> mask.value.Valid()
      invariant Merged(masks[..i]) == Ok(mask)
    {
      assert masks[..i + 1][..i] == masks[..i];
      if masks[i].Some? {
        if i == 0 {
          mask := masks[i];
        } else if mask.None? {
          MergedErrSticks(masks, i + 1);
          return Err(NoFirstMask);
        } else {
          var marked := MarkPositive(mask.value, masks[i].value);
          if marked.Err? {
            MergedErrSticks(masks, i + 1);
            return Err(marked.error);
          }
          mask := Some(marked.value);
        }
      }
      i := i + 1;
    }
    assert masks[..i] == masks;
    r := Ok(mask);
  }

  /** Some present mask is above zero at (i, j). */
  predicate AnyPositive(masks: seq<Option<Grid<real>>>, i: nat, j: nat) {
    exists k :: 0 <= k < |masks| && masks[k].Some? && i < masks[k].value.rows && j < masks[k].value.cols &&
      masks[k].value.Valid() && masks[k].value.px[i][j] > 0.0
  }

  predicate NonNegativeGrid(g: Grid<real>)
    requires g.Valid()
  {
    forall i, j :: 0 <= i < g.rows && 0 <= j < g.cols ==> g.px[i][j] >= 0.0
  }

  /** Masks of one shape with no negative pixel, the first one present. */
  predicate UnionReady(masks: seq<Option<Grid<real>>>) {
    |masks| >= 1 && masks[0].Some? && ValidMasks(masks) &&
    forall k :: 0 <= k < |masks| && masks[k].Some? ==>
      SameShape(masks[k].value, masks[0].value) && NonNegativeGrid(masks[k].value)
  }

  /** With non-negative masks of one shape and the first present, the merged mask is
      the union: it is above zero exactly where some band's mask is. */
  lemma {:induction false} MergedIsUnion(masks: seq<Option<Grid<real>>>)
    requires UnionReady(masks)
    ensures Merged(masks).Ok? && Merged(masks).value.Some?
    ensures var g := Merged(masks).value.value;
      SameShape(g, masks[0].value) && NonNegativeGrid(g) &&
      forall i, j :: 0 <= i < g.rows && 0 <= j < g.cols ==> (g.px[i][j] > 0.0 <==> AnyPositive(masks, i, j))
  {
    var n := |masks| - 1;
    var first := masks[0].value;
    if n == 0 {
      assert Merged(masks[..0]) == Ok(None);
      forall i, j | 0 <= i < first.rows && 0 <= j < first.cols && first.px[i][j] <= 0.0
        ensures !AnyPositive(masks, i, j)
      {
      }
    } else {
      var prefix := masks[..n];
      assert UnionReady(prefix) by {
        forall k | 0 <= k < |prefix| && prefix[k].Some?
          ensures SameShape(prefix[k].value, prefix[0].value) && NonNegativeGrid(prefix[k].value)
        {
          assert prefix[k] == masks[k];
        }
      }
      MergedIsUnion(prefix);
      var g := Merged(prefix).value.value;
      var m := masks[n];
      if m.Some? {
        assert !MarksOutside(g, m.value);
      }
      var h := Merged(masks).value.value;
      forall i, j | 0 <= i < h.rows && 0 <= j < h.cols
        ensures h.px[i][j] >= 0.0
        ensures h.px[i][j] > 0.0 <==> AnyPositive(masks, i, j)
      {
        assert AnyPositive(prefix, i, j) ==> AnyPositive(masks, i, j) by {
          if AnyPositive(prefix, i, j) {
            var k :| 0 <= k < |prefix| && prefix[k].Some? && i < prefix[k].value.rows && j < prefix[k].value.cols &&
              prefix[k].value.Valid() && prefix[k].value.px[i][j] > 0.0;
            assert masks[k] == prefix[k];
          }
        }
        assert AnyPositive(masks, i, j) ==> AnyPositive(prefix, i, j) || (m.Some? && m.value.px[i][j] > 0.0) by {
          if AnyPositive(masks, i, j) {
            var k :| 0 <= k < |masks| && masks[k].Some? && i < masks[k].value.rows && j < masks[k].value.cols &&
              masks[k].value.Valid() && masks[k].value.px[i][j] > 0.0;
            if k < n {
              assert prefix[k] == masks[k];
            }
          }
        }
      }
    }
  }

  /** Without a first mask, the loop ends with no mask when no band has one and
      otherwise fails at the first band that has one. */
  lemma {:induction false} MergedWithoutFirst(masks: seq<Option<Grid<real>>>)
    requires ValidMasks(masks) && |masks| >= 1 && masks[0].None?
    ensures Merged(masks) == Ok(None) <==> forall k :: 0 <= k < |masks| ==> masks[k].None?
    ensures Merged(masks) != Ok(None) ==> Merged(masks) == Err(NoFirstMask)
  {
    var n := |masks| - 1;
    if n > 0 {
      var prefix := masks[..n];
      assert ValidMasks(prefix) by {
        forall k | 0 <= k < |prefix| && prefix[k].Some?
          ensures prefix[k].value.Valid()
        {
          assert prefix[k] == masks[k];
        }
      }
      MergedWithoutFirst(prefix);
      assert (forall k :: 0 <= k < |masks| ==> masks[k].None?) <==>
             (forall k :: 0 <= k < |prefix| ==> prefix[k].None?) && masks[n].None? by {
        forall k | 0 <= k < n
          ensures prefix[k] == masks[k]
        {
        }
      }
    } else {
      assert masks[..0] == [];
    }
  }

  // ===========================================================================
  // RGBImageMaker._get_scales

  /** What the campaign table gives: the nominal exposure time, the overall scale
      `SCALE` and the relative scales of the i, r and g images. */
  datatype Setting = Setting(nominal: real, scale: real, relative: seq<real>)

  /** The campaign table, for an upper-cased campaign name. `sqrt` stands for numpy's
      square root, whose value the table only passes on. */
  function CampaignTable(campaign: string, sqrt: real -> real): (r: Result<Setting>)
    ensures r.Ok? ==> |r.value.relative| == 3 && r.value.relative[0] == 1.0
  {
    if campaign == "ONEOFF" then Ok(Setting(90.0, 0.01, [1.0, 1.0, 1.5]))
    else if campaign == "MACS" then Ok(Setting(9000.0, 0.015, [1.0, 1.0, 1.5]))
    else if campaign == "Y5A1_COADD" || campaign == "Y6A1_COADD" then Ok(Setting(NominalExptime, 0.03, [1.0, 1.0, 1.5]))
    else if campaign == "Y3A1_COADD" then Ok(Setting(NominalExptime, 0.015 * sqrt(2.0), [1.0, 1.2, 2.0]))
    else if campaign == "Y1A1" then Ok(Setting(NominalExptime, 0.010 * sqrt(2.0), [1.0, 1.2, 2.0]))
    else if campaign == "SVA1" then Ok(Setting(NominalExptime, 0.050 * 0.88, [1.0, 1.2, 2.5]))
    else Err(BadCampaign(campaign))
  }

  /** The campaigns the table knows. */
  predicate KnownCampaign(campaign: string) {
    campaign in ["ONEOFF", "MACS", "Y5A1_COADD", "Y6A1_COADD", "Y3A1_COADD", "Y1A1", "SVA1"]
  }

  /** The setting before the exposure correction: explicit relative scales come with
      the nominal exposure time and `absscale`, which must then be given (`None *
      array` raises TypeError); otherwise the table decides. */
  function ScaleSetting(campaign: string, scales: Option<seq<real>>, absscale: Option<real>,
                        sqrt: real -> real): (r: Result<Setting>)
    ensures scales.Some? ==> (r.Ok? <==> absscale.Some?)
    ensures scales.Some? && r.Ok? ==>
      r.value.relative == scales.value && r.value.nominal == NominalExptime && r.value.scale == absscale.value
    ensures scales.Some? && r.Err? ==> r.error == MissingScale
    ensures scales.None? ==> r == CampaignTable(Upper(campaign), sqrt)
  {
    if scales.Some? then
      if absscale.None? then Err(MissingScale) else Ok(Setting(NominalExptime, absscale.value, scales.value))
    else CampaignTable(Upper(campaign), sqrt)
  }

  /** `SCALE * relative_scales`. */
  function Scaled3(s: Setting): (r: seq<real>)
    ensures |r| == |s.relative|
    ensures forall k :: 0 <= k < |r| ==> r[k] == s.scale * s.relative[k]
  {
    seq(|s.relative|, (k: int) requires 0 <= k < |s.relative| => s.scale * s.relative[k])
  }

  /** The factor `sqrt(nominal/exptime)` channel `k` is multiplied by. */
  function Correction(nominal: real, e: real, sqrt: real -> real): real
    requires e != 0.0
  {
    sqrt(nominal / e)
  }

  /** One turn of the correction loop, for channel `k`: `scales[k]` fails when the
      channel has no entry, and the ratio fails on a zero exposure time. */
  function CorrectStep(t: seq<real>, k: nat, e: Option<real>, nominal: real, sqrt: real -> real): (r: Result<seq<real>>)
    ensures r.Err? <==> e.Some? && (k >= |t| || e.value == 0.0)
    ensures r.Err? ==> r.error == (if k >= |t| then ShortScales else ZeroDivision)
    ensures r.Ok? ==> |r.value| == |t| && forall j :: 0 <= j < |t| && j != k ==> r.value[j] == t[j]
    ensures r.Ok? && e.Some? ==> r.value[k] == t[k] * sqrt(nominal / e.value)
  {
    if e.None? then Ok(t)
    else if k >= |t| then Err(ShortScales)
    else if e.value == 0.0 then Err(ZeroDivision)
    else Ok(t[k := t[k] * Correction(nominal, e.value, sqrt)])
  }

  /** The scales after the loop has corrected channels 0 to n - 1. */
  function Corrected(base: seq<real>, exptimes: seq<Option<real>>, nominal: real, sqrt: real -> real, n: nat)
    : Result<seq<real>>
    requires n <= |exptimes|
  {
    if n == 0 then Ok(base)
    else
      match Corrected(base, exptimes, nominal, sqrt, n - 1)
      case Err(e) => Err(e)
      case Ok(t) => CorrectStep(t, n - 1, exptimes[n - 1], nominal, sqrt)
  }

  /** What `_get_scales` returns, given the exposure times of the three images. */
  function Scales(campaign: string, scales: Option<seq<real>>, absscale: Option<real>,
                  exptimes: seq<Option<real>>, sqrt: real -> real): Result<seq<real>>
    requires |exptimes| == 3
  {
    match ScaleSetting(campaign, scales, absscale, sqrt)
    case Err(e) => Err(e)
    case Ok(s) => Corrected(Scaled3(s), exptimes, s.nominal, sqrt, 3)
  }

  /** `_get_scales`: the setting, then the loop over the three images. */
  method GetScales(campaign: string, scales: Option<seq<real>>, absscale: Option<real>,
                   exptimes: seq<Option<real>>, sqrt: real -> real) returns (r: Result<seq<real>>)
    requires |exptimes| == 3
    ensures r == Scales(campaign, scales, absscale, exptimes, sqrt)
  {
    var setting := ScaleSetting(campaign, scales, absscale, sqrt);
    if setting.Err? {
      return Err(setting.error);
    }
    r := CorrectScales(Scaled3(setting.value), exptimes, setting.value.nominal, sqrt);
  }

  /** The loop of `_get_scales`: `scales[i] *= sqrt(nominal/exptime)` for each image
      that has an exposure time. */
  method CorrectScales(base: seq<real>, exptimes: seq<Option<real>>, nominal: real, sqrt: real -> real)
    returns (r: Result<seq<real>>)
    requires |exptimes| == 3
    ensures r == Corrected(base, exptimes, nominal, sqrt, 3)
  {
    var result := base;
    for i := 0 to 3
      invariant Corrected(base, exptimes, nominal, sqrt, i) == Ok(result)
    {
      assert Corrected(base, exptimes, nominal, sqrt, i + 1) == CorrectStep(result, i, exptimes[i], nominal, sqrt);
      if exptimes[i].Some? {
        if i >= |result| {
          CorrectedErrSticks(base, exptimes, nominal, sqrt, i + 1);
          return Err(ShortScales);
        }
        if exptimes[i].value == 0.0 {
          CorrectedErrSticks(base, exptimes, nominal, sqrt, i + 1);
          return Err(ZeroDivision);
        }
        result := result[i := result[i] * Correction(nominal, exptimes[i].value, sqrt)];
      }
    }
    r := Ok(result);
  }

  lemma {:induction false} CorrectedErrSticks(base: seq<real>, exptimes: seq<Option<real>>, nominal: real,
                                              sqrt: real -> real, n: nat)
    requires n <= |exptimes| && Corrected(base, exptimes, nominal, sqrt, n).Err?
    ensures Corrected(base, exptimes, nominal, sqrt, |exptimes|) == Corrected(base, exptimes, nominal, sqrt, n)
    decreases |exptimes| - n
  {
    if n < |exptimes| {
      CorrectedErrSticks(base, exptimes, nominal, sqrt, n + 1);
    }
  }

  /** Channel k's scale once the first n channels are corrected: unchanged past n or
      without an exposure time, multiplied by `sqrt(nominal/exptime)` otherwise. The
      loop fails exactly when a channel with an exposure time has no scale or a zero
      exposure time. */
  lemma {:induction false} CorrectedAt(base: seq<real>, exptimes: seq<Option<real>>, nominal: real,
                                       sqrt: real -> real, n: nat)
    requires n <= |exptimes|
    ensures Corrected(base, exptimes, nominal, sqrt, n).Ok? <==>
      forall k :: 0 <= k < n && exptimes[k].Some? ==> k < |base| && exptimes[k].value != 0.0
    ensures var r := Corrected(base, exptimes, nominal, sqrt, n);
      r.Ok? ==> (|r.value| == |base| &&
        forall k :: 0 <= k < |base| ==>
          r.value[k] == if k < n && exptimes[k].Some? then base[k] * Correction(nominal, exptimes[k].value, sqrt)
                        else base[k])
  {
    if n > 0 {
      CorrectedAt(base, exptimes, nominal, sqrt, n - 1);
    }
  }

  /** `_get_scales` succeeds exactly when every image with an exposure time has a
      relative scale and a non-zero exposure time, and returns one scale per
      relative scale. */
  lemma ScalesSucceed(campaign: string, scales: Option<seq<real>>, absscale: Option<real>,
                      exptimes: seq<Option<real>>, sqrt: real -> real, s: Setting)
    requires |exptimes| == 3
    requires ScaleSetting(campaign, scales, absscale, sqrt) == Ok(s)
    ensures var r := Scales(campaign, scales, absscale, exptimes, sqrt);
      (r.Ok? <==> forall k :: 0 <= k < 3 && exptimes[k].Some? ==> k < |s.relative| && exptimes[k].value != 0.0) &&
      (r.Ok? ==> |r.value| == |s.relative|)
  {
    CorrectedAt(Scaled3(s), exptimes, s.nominal, sqrt, 3);
  }

  /** Channel k of the scales the loop returns for a setting: `SCALE * relative[k]`,
      times `sqrt(nominal/exptime[k])` when k is one of the three images and has an
      exposure time. `Scales` is this for the setting `ScaleSetting` chooses. */
  lemma ScaleOfChannel(s: Setting, exptimes: seq<Option<real>>, sqrt: real -> real, k: nat)
    requires |exptimes| == 3
    requires Corrected(Scaled3(s), exptimes, s.nominal, sqrt, 3).Ok? && k < |s.relative|
    ensures k < 3 && exptimes[k].Some? ==> exptimes[k].value != 0.0
    ensures var r := Corrected(Scaled3(s), exptimes, s.nominal, sqrt, 3).value;
      k < |r| &&
      r[k] == if k < 3 && exptimes[k].Some? then s.scale * s.relative[k] * Correction(s.nominal, exptimes[k].value, sqrt)
              else s.scale * s.relative[k]
  {
    CorrectedAt(Scaled3(s), exptimes, s.nominal, sqrt, 3);
  }

  /** Explicit relative scales bypass the campaign table: the campaign, known or not,
      plays no part. */
  lemma ScalesBypassTable(c1: string, c2: string, scales: seq<real>, absscale: Option<real>,
                          exptimes: seq<Option<real>>, sqrt: real -> real)
    requires |exptimes| == 3
    ensures Scales(c1, Some(scales), absscale, exptimes, sqrt) == Scales(c2, Some(scales), absscale, exptimes, sqrt)
    ensures absscale.None? ==> Scales(c1, Some(scales), absscale, exptimes, sqrt) == Err(MissingScale)
  {
  }

  /** Without explicit scales, a campaign outside the table is rejected with its
      upper-cased name, and a known one in any case gets a setting. */
  lemma UnknownCampaign(campaign: string, absscale: Option<real>, exptimes: seq<Option<real>>, sqrt: real -> real)
    requires |exptimes| == 3
    ensures !KnownCampaign(Upper(campaign)) ==>
      Scales(campaign, None, absscale, exptimes, sqrt) == Err(BadCampaign(Upper(campaign)))
    ensures KnownCampaign(Upper(campaign)) <==> ScaleSetting(campaign, None, absscale, sqrt).Ok?
  {
  }

  // ===========================================================================
  // Files and FilesAuto

  /** The `Files` dictionary: campaign (upper-cased), tile name, the five band files
      (u and z optional) and the band list `_bands`. */
  datatype Files = Files(campaign: string, tilename: string, gfile: string, rfile: string, ifile: string,
                         ufile: Option<string>, zfile: Option<string>, bands: seq<string>)

  /** The band list `Files.__init__` builds: g, r, i, with u in front and z behind
      when those files are given. */
  function DefaultBands(u: bool, z: bool): seq<string> {
    (if u then ["u"] else []) + ["g", "r", "i"] + (if z then ["z"] else [])
  }

  /** `Files.__init__`; `preset` is a `_bands` already set by `FilesAuto`, which is kept. */
  function NewFiles(gfile: string, rfile: string, ifile: string, ufile: Option<string>, zfile: Option<string>,
                    campaign: string, tilename: string, preset: Option<seq<string>>): (f: Files)
    ensures f.campaign == Upper(campaign) && f.tilename == tilename
    ensures f.gfile == gfile && f.rfile == rfile && f.ifile == ifile && f.ufile == ufile && f.zfile == zfile
  {
    Files(Upper(campaign), tilename, gfile, rfile, ifile, ufile, zfile,
          if preset.Some? then preset.value else DefaultBands(ufile.Some?, zfile.Some?))
  }

  /** The bands in wavelength order. */
  const Wavelength: seq<string> := ["u", "g", "r", "i", "z"]

  /** Without a preset, the band list holds g, r and i, u exactly when a u file is
      given and z exactly when a z file is given, as one run of the bands in
      wavelength order; a preset list is kept as it is. */
  lemma FilesBands(gfile: string, rfile: string, ifile: string, ufile: Option<string>, zfile: Option<string>,
                   campaign: string, tilename: string, preset: Option<seq<string>>)
    ensures var bands := NewFiles(gfile, rfile, ifile, ufile, zfile, campaign, tilename, preset).bands;
      (preset.Some? ==> bands == preset.value) &&
      (preset.None? ==>
        bands == Wavelength[(if ufile.Some? then 0 else 1)..(if zfile.Some? then 5 else 4)] &&
        forall b :: b in bands <==> b in ["g", "r", "i"] || (b == "u" && ufile.Some?) || (b == "z" && zfile.Some?))
  {
  }

  /** `FilesAuto`: the `Files` dictionary together with the rebin factor and the
      clean-up flag. */
  datatype AutoFiles = AutoFiles(files: Files, rebin: Option<int>, clean: bool)

  /** The file-list key of a band: `'%s-%s' % (tilename, band)`. */
  function CoaddKey(tilename: string, band: string): string {
    tilename + "-" + band
  }

  /** `get_coadd_file`: the listed file's name inside the temporary directory. */
  function CoaddFile(desdata: string, campaign: string, tilename: string, path: string): string {
    JoinPath(FileNames.TempDir(desdata, campaign, tilename), Basename(path))
  }

  /** `get_remote_coadd_file`: the listed path under the rsync root. */
  function RemoteCoaddFile(remote: string, path: string): string {
    JoinPath(remote, path)
  }

  /** The local copy keeps the remote file's name, in the temporary directory. */
  lemma CoaddFileKeepsName(desdata: string, campaign: string, tilename: string, remote: string, path: string)
    ensures Basename(CoaddFile(desdata, campaign, tilename, path)) == Basename(RemoteCoaddFile(remote, path))
  {
    BasenameOfJoinAny(remote, path);
    BasenameHasNoSlash(path);
    BasenameOfJoin(FileNames.TempDir(desdata, campaign, tilename), Basename(path));
  }

  lemma {:induction false} BasenameHasNoSlash(p: string)
    ensures '/' !in Basename(p)
  {
    if !(p == [] || p[|p| - 1] == '/') {
      BasenameHasNoSlash(p[..|p| - 1]);
    }
  }

  /** The keys `_get_files` writes for a band. */
  function FileKey(band: string): string { band + "file" }
  function RemoteKey(band: string): string { band + "file_remote" }

  /** A local-file key is never a remote-file key, and each kind of key names one band. */
  lemma KeysDistinct(a: string, b: string)
    ensures FileKey(a) != RemoteKey(b)
    ensures FileKey(a) == FileKey(b) ==> a == b
    ensures RemoteKey(a) == RemoteKey(b) ==> a == b
  {
    var x, y := FileKey(a), RemoteKey(b);
    if |x| == |y| {
      assert x[|x| - 4] == 'f' && y[|y| - 4] == 'm';
    }
    if FileKey(a) == FileKey(b) {
      assert FileKey(a)[..|a|] == a && FileKey(b)[..|b|] == b;
    }
    if RemoteKey(a) == RemoteKey(b) {
      assert RemoteKey(a)[..|a|] == a && RemoteKey(b)[..|b|] == b;
    }
  }

  /** The local file of a listed band. */
  function LocalFile(desdata: string, campaign: string, tilename: string, flist: map<string, string>, band: string): string
    requires CoaddKey(tilename, band) in flist
  {
    CoaddFile(desdata, campaign, tilename, flist[CoaddKey(tilename, band)])
  }

  /** What `_get_files` has written for the bands it has seen: both keys of each,
      and no other key. */
  predicate FilesWritten(d: map<string, string>, bands: seq<string>, desdata: string, campaign: string,
                         tilename: string, remote: string, flist: map<string, string>)
  {
    (forall b :: b in bands ==> CoaddKey(tilename, b) in flist) &&
    (forall b :: b in bands ==>
      FileKey(b) in d && d[FileKey(b)] == LocalFile(desdata, campaign, tilename, flist, b) &&
      RemoteKey(b) in d && d[RemoteKey(b)] == RemoteCoaddFile(remote, flist[CoaddKey(tilename, b)])) &&
    (forall key :: key in d ==> exists b :: b in bands && (key == FileKey(b) || key == RemoteKey(b)))
  }

  /** One turn of the loop of `_get_files`. */
  function WriteBand(d: map<string, string>, band: string, desdata: string, campaign: string,
                     tilename: string, remote: string, flist: map<string, string>): map<string, string>
    requires CoaddKey(tilename, band) in flist
  {
    d[FileKey(band) := LocalFile(desdata, campaign, tilename, flist, band)]
     [RemoteKey(band) := RemoteCoaddFile(remote, flist[CoaddKey(tilename, band)])]
  }

  lemma WriteBandStep(d: map<string, string>, done: seq<string>, band: string, desdata: string, campaign: string,
                      tilename: string, remote: string, flist: map<string, string>)
    requires FilesWritten(d, done, desdata, campaign, tilename, remote, flist)
    requires CoaddKey(tilename, band) in flist
    ensures FilesWritten(WriteBand(d, band, desdata, campaign, tilename, remote, flist), done + [band],
                         desdata, campaign, tilename, remote, flist)
  {
    var e := WriteBand(d, band, desdata, campaign, tilename, remote, flist);
    forall c | c in done + [band]
      ensures FileKey(c) in e && e[FileKey(c)] == LocalFile(desdata, campaign, tilename, flist, c)
      ensures RemoteKey(c) in e && e[RemoteKey(c)] == RemoteCoaddFile(remote, flist[CoaddKey(tilename, c)])
    {
      KeysDistinct(c, band);
      KeysDistinct(band, c);
    }
    forall key | key in e
      ensures exists c :: c in done + [band] && (key == FileKey(c) || key == RemoteKey(c))
    {
      if key != FileKey(band) && key != RemoteKey(band) {
        var c :| c in done && (key == FileKey(c) || key == RemoteKey(c));
        assert c in done + [band];
      }
    }
  }

  /** Which band keys the written map has: the local file key of a band is there
      exactly when the band was seen. */
  lemma WrittenKey(d: map<string, string>, bands: seq<string>, desdata: string, campaign: string,
                   tilename: string, remote: string, flist: map<string, string>, band: string)
    requires FilesWritten(d, bands, desdata, campaign, tilename, remote, flist)
    ensures FileKey(band) in d <==> band in bands
  {
    if FileKey(band) in d {
      var c :| c in bands && (FileKey(band) == FileKey(c) || FileKey(band) == RemoteKey(c));
      KeysDistinct(band, c);
    }
  }

  /** Band `k` is the first without a file-list entry. */
  predicate FirstMissing(bands: seq<string>, k: int, tilename: string, flist: map<string, string>)
    requires 0 <= k < |bands|
  {
    CoaddKey(tilename, bands[k]) !in flist && forall p :: 0 <= p < k ==> CoaddKey(tilename, bands[p]) in flist
  }

  /** The map `_get_files` has built after the bands `done`, all of them listed. */
  function Written(done: seq<string>, desdata: string, campaign: string, tilename: string, remote: string,
                   flist: map<string, string>): map<string, string>
    requires forall b :: b in done ==> CoaddKey(tilename, b) in flist
  {
    if done == [] then map[]
    else WriteBand(Written(done[..|done| - 1], desdata, campaign, tilename, remote, flist), done[|done| - 1],
                   desdata, campaign, tilename, remote, flist)
  }

  /** The built map holds both keys of every band seen and nothing else. */
  lemma {:induction false} WrittenHoldsFiles(done: seq<string>, desdata: string, campaign: string, tilename: string,
                                             remote: string, flist: map<string, string>)
    requires forall b :: b in done ==> CoaddKey(tilename, b) in flist
    ensures FilesWritten(Written(done, desdata, campaign, tilename, remote, flist), done,
                         desdata, campaign, tilename, remote, flist)
  {
    if done != [] {
      var n := |done| - 1;
      assert done == done[..n] + [done[n]];
      WrittenHoldsFiles(done[..n], desdata, campaign, tilename, remote, flist);
      WriteBandStep(Written(done[..n], desdata, campaign, tilename, remote, flist), done[..n], done[n],
                    desdata, campaign, tilename, remote, flist);
    }
  }

  /** `FilesAuto._get_files`: for each band, in order, the local and the remote
      coadd file; the first band without a file-list entry raises KeyError. */
  method GetFiles(desdata: string, campaign: string, tilename: string, remote: string, bands: seq<string>,
                  flist: map<string, string>) returns (r: Result<map<string, string>>)
    ensures r.Ok? <==> forall b :: b in bands ==> CoaddKey(tilename, b) in flist
    ensures r.Ok? ==> FilesWritten(r.value, bands, desdata, campaign, tilename, remote, flist)
    ensures r.Err? ==>
      exists k :: 0 <= k < |bands| && FirstMissing(bands, k, tilename, flist) && r.error == MissingKey(CoaddKey(tilename, bands[k]))
  {
    var d: map<string, string> := map[];
    for i := 0 to |bands|
      invariant forall p :: 0 <= p < i ==> CoaddKey(tilename, bands[p]) in flist
      invariant d == Written(bands[..i], desdata, campaign, tilename, remote, flist)
    {
      var key := CoaddKey(tilename, bands[i]);
      if key !in flist {
        assert FirstMissing(bands, i, tilename, flist);
        assert bands[i] in bands;
        return Err(MissingKey(key));
      }
      assert bands[..i + 1][..i] == bands[..i];
      d := WriteBand(d, bands[i], desdata, campaign, tilename, remote, flist);
    }
    assert bands[..|bands|] == bands;
    WrittenHoldsFiles(bands, desdata, campaign, tilename, remote, flist);
    r := Ok(d);
  }

  /** `FilesAuto.__init__`: `_bands` defaults to g, r, i; the g, r and i files must
      be among the ones found, and the u and z files are those found for u and z. */
  method NewFilesAuto(desdata: string, campaign: string, tilename: string, remote: string, rebin: Option<int>,
                      clean: bool, bands: Option<seq<string>>, flist: map<string, string>)
    returns (r: Result<AutoFiles>)
    ensures var bs := if bands.Some? then bands.value else ["g", "r", "i"];
      r.Ok? <==> (forall b :: b in bs ==> CoaddKey(tilename, b) in flist) && "g" in bs && "r" in bs && "i" in bs
    ensures r.Ok? ==>
      var bs := if bands.Some? then bands.value else ["g", "r", "i"];
      var f := r.value.files;
      f.bands == bs && f.campaign == Upper(campaign) && f.tilename == tilename &&
      r.value.rebin == rebin && r.value.clean == clean &&
      (f.ufile.Some? <==> "u" in bs) && (f.zfile.Some? <==> "z" in bs)
    ensures r.Ok? ==>
      var f := r.value.files;
      var up := Upper(campaign);
      CoaddKey(tilename, "g") in flist && f.gfile == LocalFile(desdata, up, tilename, flist, "g") &&
      CoaddKey(tilename, "r") in flist && f.rfile == LocalFile(desdata, up, tilename, flist, "r") &&
      CoaddKey(tilename, "i") in flist && f.ifile == LocalFile(desdata, up, tilename, flist, "i") &&
      (f.ufile.Some? ==> CoaddKey(tilename, "u") in flist && f.ufile.value == LocalFile(desdata, up, tilename, flist, "u")) &&
      (f.zfile.Some? ==> CoaddKey(tilename, "z") in flist && f.zfile.value == LocalFile(desdata, up, tilename, flist, "z"))
  {
    var bs := if bands.Some? then bands.value else ["g", "r", "i"];
    var up := Upper(campaign);
    var fd := GetFiles(desdata, up, tilename, remote, bs, flist);
    if fd.Err? {
      return Err(fd.error);
    }
    var d := fd.value;
    WrittenKey(d, bs, desdata, up, tilename, remote, flist, "g");
    WrittenKey(d, bs, desdata, up, tilename, remote, flist, "r");
    WrittenKey(d, bs, desdata, up, tilename, remote, flist, "i");
    WrittenKey(d, bs, desdata, up, tilename, remote, flist, "u");
    WrittenKey(d, bs, desdata, up, tilename, remote, flist, "z");
    if FileKey("g") !in d {
      return Err(MissingKey(FileKey("g")));
    }
    if FileKey("r") !in d {
      return Err(MissingKey(FileKey("r")));
    }
    if FileKey("i") !in d {
      return Err(MissingKey(FileKey("i")));
    }
    var ufile := if FileKey("u") in d then Some(d[FileKey("u")]) else None;
    var zfile := if FileKey("z") in d then Some(d[FileKey("z")]) else None;
    var files := NewFiles(d[FileKey("g")], d[FileKey("r")], d[FileKey("i")], ufile, zfile, campaign, tilename, Some(bs));
    r := Ok(AutoFiles(files, rebin, clean));
  }

  // ---------------------------------------------------------------------------
  // FilesAuto.sync: the brace pattern handed to rsync

  /** `'{' + p + '}'` with `p` the g, r, i suffixes, `_u,` in front when there is a
      u file and `,_z` behind when there is a z file. */
  function SyncPattern(f: Files): string {
    var p := "_g,_r,_i";
    var p1 := if f.ufile.Some? then "_u," + p else p;
    var p2 := if f.zfile.Some? then p1 + ",_z" else p1;
    "{" + p2 + "}"
  }

  /** The remote source of `sync`: every `_g` of the g band's remote path replaced by
      the pattern. */
  function SyncSource(remoteUrl: string, f: Files): string {
    ReplaceAll(remoteUrl, "_g", SyncPattern(f))
  }

  /** The band suffixes `_<band>`. */
  function Suffixes(bands: seq<string>): (s: seq<string>)
    ensures |s| == |bands| && forall k :: 0 <= k < |bands| ==> s[k] == "_" + bands[k]
  {
    seq(|bands|, (k: int) requires 0 <= k < |bands| => "_" + bands[k])
  }

  /** For `Files` built without a preset band list, the pattern lists the suffix of
      every band of that list, in order and nothing else. */
  lemma SyncPatternListsBands(f: Files)
    requires f.bands == DefaultBands(f.ufile.Some?, f.zfile.Some?)
    ensures var p := SyncPattern(f);
      |p| >= 2 && p[0] == '{' && p[|p| - 1] == '}' &&
      Split(p[1..|p| - 1], ',') == Suffixes(f.bands)
  {
    var p := SyncPattern(f);
    var inner := JoinWith(",", Suffixes(f.bands));
    InnerPattern(f.ufile.Some?, f.zfile.Some?);
    assert p == "{" + inner + "}";
    assert p[1..|p| - 1] == inner;
    forall k | 0 <= k < |f.bands|
      ensures ',' !in Suffixes(f.bands)[k]
    {
    }
    SplitJoin(Suffixes(f.bands), ',');
  }

  lemma InnerPattern(u: bool, z: bool)
    ensures var p := "_g,_r,_i";
      var p1 := if u then "_u," + p else p;
      var p2 := if z then p1 + ",_z" else p1;
      p2 == JoinWith(",", Suffixes(DefaultBands(u, z)))
  {
    var gri := ["_g", "_r", "_i"];
    assert JoinWith(",", gri) == "_g,_r,_i" by {
      assert gri[1..] == ["_r", "_i"] && gri[1..][1..] == ["_i"];
    }
    var front := if u then ["_u"] + gri else gri;
    var p1 := if u then "_u," + "_g,_r,_i" else "_g,_r,_i";
    SuffixesOfDefault(u, z);
    if u {
      JoinCons(",", "_u", gri);
      assert "_u" + "," + "_g,_r,_i" == "_u," + "_g,_r,_i";
    }
    assert JoinWith(",", front) == p1;
    if z {
      JoinSnoc(",", front, "_z");
      assert p1 + "," + "_z" == p1 + ",_z";
      assert Suffixes(DefaultBands(u, z)) == front + ["_z"];
    } else {
      assert Suffixes(DefaultBands(u, z)) == front;
    }
  }

  /** The suffixes of the default band list. */
  lemma SuffixesOfDefault(u: bool, z: bool)
    ensures Suffixes(DefaultBands(u, z)) ==
      (if u then ["_u"] else []) + ["_g", "_r", "_i"] + (if z then ["_z"] else [])
  {
    var bands := DefaultBands(u, z);
    var want := (if u then ["_u"] else []) + ["_g", "_r", "_i"] + (if z then ["_z"] else []);
    assert |want| == |bands|;
    forall k | 0 <= k < |bands|
      ensures Suffixes(bands)[k] == want[k]
    {
      var o := if u then 1 else 0;
      if u && k == 0 {
        assert bands[k] == "u";
      } else if k - o < 3 {
        assert bands[k] == ["g", "r", "i"][k - o];
        assert want[k] == ["_g", "_r", "_i"][k - o];
      } else {
        assert bands[k] == "z";
      }
    }
  }

  /** A remote path with a single `_g` gets the pattern in its place and is otherwise
      kept; one without `_g` is kept whole. */
  lemma SyncSourceSingle(a: string, b: string, f: Files)
    requires forall k :: 0 <= k < |a| ==> !OccursAt(a + "_g" + b, "_g", k)
    requires forall k :: !OccursAt(b, "_g", k)
    ensures SyncSource(a + "_g" + b, f) == a + SyncPattern(f) + b
    ensures SyncSource(b, f) == b
  {
    ReplaceSingle(a, "_g", b, SyncPattern(f));
    ReplaceAbsent(b, "_g", SyncPattern(f));
  }

  // ---------------------------------------------------------------------------
  // FilesAuto.get_output_front

  /** The name part of the output front: `<tile>_gri`, then `_rebinNN` with a rebin factor. */
  function FrontName(tilename: string, rebin: Option<int>): string {
    var front := tilename + "_gri";
    if rebin.Some? then front + "_rebin" + Format02(rebin.value) else front
  }

  /** `get_output_front`. */
  function OutputFront(desdata: string, a: AutoFiles): string {
    JoinPath(FileNames.OutputDir(desdata, a.files.campaign, a.files.tilename), FrontName(a.files.tilename, a.rebin))
  }

  /** With a slash-free tile name the front names `<tile>_gri[_rebinNN]` inside the
      output directory, whatever bands were used, and a non-negative rebin factor
      reads back from the last field. */
  lemma OutputFrontName(desdata: string, a: AutoFiles)
    requires '/' !in a.files.tilename
    requires a.rebin.Some? ==> a.rebin.value >= 0
    ensures var name := Basename(OutputFront(desdata, a));
      name == FrontName(a.files.tilename, a.rebin) &&
      |name| >= |a.files.tilename| + 4 && name[..|a.files.tilename| + 4] == a.files.tilename + "_gri" &&
      (a.rebin.Some? ==> |name| >= |a.files.tilename| + 10 && ParseDigits(name[|a.files.tilename| + 10..]) == a.rebin.value)
  {
    var t := a.files.tilename;
    var name := FrontName(t, a.rebin);
    if a.rebin.Some? {
      var n: nat := a.rebin.value;
      Format02Digits(n);
      Format02RoundTrip(n);
      assert name == (t + "_gri_rebin") + Format02(n);
      assert name[|t| + 10..] == Format02(n);
    }
    assert '/' !in name;
    BasenameOfJoin(FileNames.OutputDir(desdata, a.files.campaign, t), name);
  }
}
