# desimage in Dafny

This project models the image-making part of `desimage`. That Python package makes colour JPEG
images of Dark Energy Survey coadd tiles from three (optionally five) single-band
FITS images. The model covers four parts of it:

- **Array kernels** (`desimage/images.py`):
  - the pure array functions `rebin`, `boost` and `bytescale`;
  - the in-place, colour-preserving saturation fixes `_get_max_image`,
    `_fix_hard_satur` and `_fix_rgb_satur`;
  - `get_color_image`, which clips and scales, applies the asinh stretch, fixes
    saturation and composes the (rows, cols, 3) colour image.
- **Image preparation and configuration** (`desimage/imagemaker.py`):
  - the `ImageTrans` methods `add_image`, `flip_ud` and `rebin`;
  - the mask-union loop of `RGBImageMaker._make_imlist`;
  - the campaign table and exposure correction of `_get_scales`;
  - the `Files` band list;
  - from `FilesAuto`: the key/file dictionary, the rsync brace pattern of `sync`
    and the output front name.
- **Path names** (`desimage/files.py`): the directory and file names of the lists,
  outputs, logs, scripts and wq batch files.
- **Batch scripts** (`desimage/batch.py`), through `ScriptMaker`:
  - its constructor defaults;
  - the tile names taken from the file-list keys;
  - the all-bands-present check;
  - the `wq`/`lsf` dispatch;
  - the texts of the shell script and the wq job;
  - the whole `go` loop, as the list of file-system actions it performs.

Modules, one per file:

| file | module | role |
|---|---|---|
| `common.dfy` | `Common` | `Option`, `Result`, the `Error` cases the source raises, `Rgb` triples |
| `grids.dfy` | `Grids` | a 2-D image as a value (`Grid`), the snapshot of an `array2`, pixel counts |
| `strings.dfy` | `Strings` | `str.upper`, `posixpath.join`/`basename`, `str.join`/`split`, `str.replace`, `%02d` |
| `images.dfy` | `Images` | `images.py` |
| `imagemaker.dfy` | `ImageMaker` | `imagemaker.py` |
| `filenames.dfy` | `FileNames` | `files.py` |
| `batch.dfy` | `Batch` | `batch.py` |

How the source is represented:

- **Pure numpy expressions.** `rebin`, `boost`, `bytescale`, the masks and the
  stretch are functions on `Grid` values.
- **In-place kernels.** `_get_max_image`, `_fix_hard_satur`, `_fix_rgb_satur` and
  the clip/scale steps of `get_color_image` work on `array2<real>` with loops.
  Each method's `ensures` ties the new array contents (through `Snapshot`) to the
  function that specifies the step. The properties are proved as lemmas about
  those functions.
- **`ImageTrans`** is a class whose fields (`image`, `mask`, `exptime`, `band`) its
  methods reassign.
- **Loops that stop at the first error.** The mask-union loop and the exposure
  loop of `_get_scales` are methods proved against recursive functions over the
  processed prefix. So are the loops of `FilesAuto._get_files` and of
  `ScriptMaker.go`.
- **Exceptions** are `Err` values naming the Python error (`ZeroDivision`,
  `NotDivisible`, `MissingKey`, `UndefinedName`, ...).
- **Pixels and exposure times** are `real`.
- **Parameters** stand in for what the model cannot compute or see:
  - `np.arcsinh` and `sqrt` are function parameters;
  - `$DESDATA` and `$DESREMOTE_RSYNC` are string parameters (`desdata`, `remote`);
  - the coadd file list is a `map` (or a sequence of its keys);
  - the set of files that exist is a `set<string>`.

Where the package's docstrings (`images.py:7-10`, `images.py:23`,
`images.py:151-152`) promise more than its code does, the model follows the code:

- Saturation correction (`images.py:139,159,168,172`). The code applies each
  correction only when more than one pixel needs it. A lone saturated pixel keeps
  its value above 1. So "no output channel exceeds 1" holds only under that
  condition (`Images.RgbSaturBound`, `Images.StretchedInUnitRange`), and
  `Images.MaxImageSkipsSinglePixel` shows the skipped case.
- Clipping (`images.py:38-40`). Each channel is clipped to `[0, max]` before it is
  scaled, not after.
- `rebin` with factor 0 (`imagemaker.py:422-430`). The factor is not checked
  against `< 1`. A factor of 0 fails with a division by zero, and a negative one
  fails on the array shape.
- Mask merge (`imagemaker.py:189-197`). When the first band has no mask but a
  later one does, the merge fails (`NoFirstMask`); nothing is merged.

## Model

| member | source | states |
|---|---|---|
| Images.Rebin | desimage/images.py:113-120 | factor 0 is a division by zero; a shape not divisible by the factor is the `ValueError`; a negative divisible factor is a bad shape; otherwise the result's shape times the factor is the input's shape |
| Images.RebinUniform | desimage/images.py:126 | rebinning an image whose pixels all equal `v` gives an image whose pixels all equal `v` (each output pixel is its block's sum over factor²) |
| Images.BlockMeanConst | desimage/images.py:126 | a factor×factor block of equal pixels `v` has mean `v` |
| Images.Boost | desimage/images.py:97-106 | a factor below 1 is the `ValueError`; an empty dimension is the `ValueError` of an index grid whose step 0/0 is NaN; otherwise the shape is multiplied by the factor (exact integer indices) |
| Images.BoostBlocks | desimage/images.py:101-106 | output pixel `(i*f+di, j*f+dj)` is input pixel `(i, j)` for every offset below the factor (exact integer indices) |
| Images.RebinBoost | desimage/images.py:92-126 | rebinning a boosted image by the same factor gives back the original image (exact integer indices) |
| Images.ByteScale | desimage/images.py:89 | for an input in [0,1] the byte is in [0,255] and is `x*255` truncated |
| Images.ByteScaleImage | desimage/images.py:83-90 | the byte image has the colour image's shape and every channel in [0,255] |
| Images.WhiteBytes | desimage/images.py:89 | an all-white image is in the unit range and becomes (255,255,255) everywhere |
| Images.Intensity | desimage/images.py:54-61 | the intensity after the `I <= 0` substitution is positive, so the stretch never divides by zero |
| Images.GridMax | desimage/images.py:38-40 | `max()` of a non-empty image bounds every pixel and is attained by one |
| Images.ClipGrid | desimage/images.py:38-40 | every pixel becomes `min(max(x, 0), hi)`, shape unchanged |
| Images.ScaleGrid | desimage/images.py:43-45 | every pixel is multiplied by the scale, shape unchanged |
| Images.Greater | desimage/images.py:167-171 | the mask is true exactly where the first image exceeds the second |
| Images.Above | desimage/images.py:138 | the mask is true exactly where the maximum image exceeds `satval` |
| Images.Select | desimage/images.py:169-173 | pixels under the mask come from the source, the others are kept |
| Images.ScaleWhere | desimage/images.py:141-144 | pixels under the mask are multiplied by `satval/max`, the others are kept |
| Images.FillWhere | desimage/images.py:145 | pixels under the mask become `satval`, the others are kept |
| Images.RecipWhere | desimage/images.py:161 | pixels under the mask become `1/max`, the others are kept |
| Images.SaturMask | desimage/images.py:158 | the mask is true exactly where some channel times the factor exceeds 1 |
| Images.Stretch | desimage/images.py:54-63 | the factor at each pixel is `asinh(I)/I` of that pixel's (substituted) intensity |
| Images.Compose | desimage/images.py:70-79 | the colour pixel is the three channels each multiplied by that pixel's factor |
| Images.MaxStage | desimage/images.py:167-169 | one stage of `_get_max_image` never lowers a pixel and takes each value from one of its two inputs |
| Images.MaxImage | desimage/images.py:164-175 | the maximum image is at least `im1` and each pixel comes from one of the three inputs |
| Images.MaxStageIsMax | desimage/images.py:167-169 | unless exactly one pixel is greater, a stage is the pointwise maximum |
| Images.MaxStageSkipsSingle | desimage/images.py:167-173 | when exactly one pixel is greater, a stage returns its first image unchanged and is below the pointwise maximum at some pixel |
| Images.MaxImageIsMax | desimage/images.py:164-175 | when neither stage has exactly one greater pixel, the result is the pointwise maximum of the three |
| Images.MaxStageNoop | desimage/images.py:167-169 | when no pixel of the second image is greater, the stage changes nothing |
| Images.MaxImageSkipsSinglePixel | desimage/images.py:168-169 | a 1×2 example where one greater pixel is ignored, so the result is below the true maximum |
| Images.HardSatur | desimage/images.py:128-147 | when it succeeds, the three channels and the maximum image keep their shape |
| Images.HardSaturAt | desimage/images.py:138-145 | per pixel: over `satval` (and more than one such pixel) the triple is scaled by `satval/max` and the maximum is `satval`; elsewhere both are unchanged |
| Images.HardSaturKeepsHue | desimage/images.py:141-144 | every output triple is the input triple times one factor, and a factor other than 1 only where the maximum became `satval` |
| Images.HardSaturCaps | desimage/images.py:136-147 | for non-negative channels, without single-pixel stages, every channel ends at most `satval` and the maximum image is `min(max3, satval)` |
| Images.HardSaturCapsAt | desimage/images.py:138-145 | the same cap at one pixel whose maximum is its true max3 |
| Images.RgbSatur | desimage/images.py:149-161 | when it succeeds the factor keeps its shape |
| Images.RgbSaturTouchesOnlySaturated | desimage/images.py:156-161 | with more than one saturated pixel, those get `1/max` and all others keep their factor; with at most one, nothing changes |
| Images.RgbSaturBound | desimage/images.py:156-161 | for non-negative channels and positive factors, unless exactly one pixel saturates, every channel times the new factor is at most 1 and equals 1 for the brightest channel of each saturated pixel |
| Images.RgbSaturBoundAt | desimage/images.py:156-161 | the same bound at one pixel |
| Images.RgbSaturZeroMaximum | desimage/images.py:156-161 | an example where the saturated pixels have a zero maximum image (the single-pixel skip), so `1/max` is not finite and the model reports it |
| Images.ComposeInUnitRange | desimage/images.py:70-79 | capped non-negative channels compose to an image in [0,1] |
| Images.ClipChannels | desimage/images.py:34-40 | the clipped copies have the shapes of the inputs |
| Images.ScaleChannels | desimage/images.py:42-45 | the scaled channels keep their shapes |
| Images.SaturFix | desimage/images.py:47-50 | when it succeeds, the channels keep their shapes |
| Images.Stretched | desimage/images.py:54-79 | a successful stretch has equal-shape channels and the channels' shape |
| Images.Factors | desimage/images.py:42-45 | no scales read nothing; a list gives the factors exactly when it has at least three entries, and they are its first three; a shorter list is the `IndexError` |
| Images.Prepared | desimage/images.py:34-50 | an input with a zero-size dimension is the `ValueError` of `max()`; otherwise a scale list of fewer than three entries is the `IndexError`; with usable scales and without `satval`, preparing the channels cannot fail; success implies usable scales |
| Images.PreparedShape | desimage/images.py:34-50 | the prepared channels have the input shapes |
| Images.ColorImage | desimage/images.py:3-81 | an input with a zero-size dimension is the `ValueError` of `max()`; otherwise a scale list of fewer than three entries is the `IndexError`; with usable scales and without `satval`, `nonlinear` 0 is the division by zero |
| Images.ColorImageReadsThreeScales | desimage/images.py:42-45 | entries of `scales` after the third change nothing: the image is the one of the first three |
| Images.ColorImageShapeMismatch | desimage/images.py:54-72 | without `satval`, non-empty inputs of unequal shapes are refused where the channels are added |
| Images.ColorImageShape | desimage/images.py:3-81 | a successful colour image has the inputs' (equal) shape and is the stretch of the prepared channels |
| Images.StretchedAt | desimage/images.py:63-72 | each output triple is the prepared triple times the corrected factor |
| Images.StretchedBlack | desimage/images.py:59-72 | a (0,0,0) pixel stays (0,0,0) through the stretch, whatever the substituted intensity |
| Images.ScaledBlack | desimage/images.py:38-45 | non-positive inputs are 0 after clipping and scaling |
| Images.ClipScaleBlack | desimage/images.py:38-45 | a non-positive pixel clips to 0 and stays 0 when scaled |
| Images.SaturFixBlack | desimage/images.py:47-50 | the hard-saturation fix leaves a (0,0,0) pixel black |
| Images.BlackStaysBlack | desimage/images.py:38-72 | a pixel that is non-positive in all three inputs is (0,0,0) in the colour image |
| Images.HuePreserved | desimage/images.py:38-72 | every colour pixel is the prepared triple times one factor, so channel ratios are kept |
| Images.StretchPositive | desimage/images.py:59-63 | the stretch factor is positive when `asinh` is positive on positive inputs |
| Images.ClippedNonNegative | desimage/images.py:38-40 | the clipped channels are non-negative |
| Images.ScaledChannelsNonNegative | desimage/images.py:42-45 | non-negative scales keep the channels non-negative |
| Images.StretchedInUnitRange | desimage/images.py:54-72 | non-negative channels stretch into [0,1] unless exactly one pixel saturates |
| Images.ColorImageInUnitRange | desimage/images.py:3-81 | end to end without `satval`: the colour image is in [0,1] under the same single-pixel condition |
| Images.StretchedUniform | desimage/images.py:54-72 | three equal uniform channels that saturate stretch to all white |
| Images.ClipUniform | desimage/images.py:38-40 | clipping a positive uniform image changes nothing |
| Images.UniformSaturatesToWhite | desimage/images.py:3-81 | three equal uniform positive inputs whose stretch exceeds 1 give an all-white image |
| Images.ColorImageOfUniform | desimage/images.py:38-50 | for three equal uniform positive inputs the colour image is the stretch of the inputs themselves |
| Images.CopyOf | desimage/images.py:165 | the copy is a new array with the same contents |
| Images.ArrayMax | desimage/images.py:38 | returns the maximum of a non-empty array |
| Images.ClipInPlace | desimage/images.py:38-40 | the array becomes its clip to `[0, hi]` |
| Images.ScaleInPlace | desimage/images.py:43-45 | the array becomes its scaled image |
| Images.GreaterMask | desimage/images.py:167-171 | a new mask equal to `Greater` of the two arrays |
| Images.AboveMask | desimage/images.py:138 | a new mask equal to `Above` |
| Images.SaturatedMask | desimage/images.py:158 | a new mask equal to `SaturMask` |
| Images.AssignWhere | desimage/images.py:169-173 | `a[w] = src[w]` in place |
| Images.ZeroWhere | desimage/images.py:141 | true exactly when some masked pixel has a zero maximum |
| Images.ScaleWhereInPlace | desimage/images.py:142-144 | `a[w] *= t/m[w]` in place |
| Images.FillWhereInPlace | desimage/images.py:145 | `a[w] = t` in place |
| Images.RecipWhereInPlace | desimage/images.py:161 | `a[w] = 1/m[w]` in place |
| Images.GetMaxImage | desimage/images.py:164-175 | a new array equal to `MaxImage` of the inputs, which it does not modify |
| Images.MaxStageInPlace | desimage/images.py:167-169 | one stage in place, equal to `MaxStage` |
| Images.FixHardSatur | desimage/images.py:128-147 | the channels become `HardSatur`'s channels and the returned array its maximum image; on a zero maximum nothing changes |
| Images.HardSaturMask | desimage/images.py:136-139 | the maximum image, the pixels above `satval` and their count |
| Images.ApplyHardSatur | desimage/images.py:141-145 | channels rescaled and the maximum filled with `satval` under the mask |
| Images.RescaleChannels | desimage/images.py:141-144 | the three channels rescaled by `t/m` under the mask |
| Images.FixRgbSatur | desimage/images.py:149-161 | the factor array becomes `RgbSatur`'s result, or is unchanged when that fails |
| Images.StretchFactor | desimage/images.py:54-63 | a new array equal to `Stretch` of the channels |
| Images.ComposeImage | desimage/images.py:70-79 | a new (rows, cols, 3) array equal to `Compose` |
| Images.ClippedCopy | desimage/images.py:34-40 | a new array: the input clipped to `[0, max]` |
| Images.ClippedCopies | desimage/images.py:34-40 | three distinct new arrays equal to `ClipChannels` |
| Images.ScaleChannelsInPlace | desimage/images.py:42-45 | the channels become `ScaleChannels` of themselves |
| Images.PrepareChannels | desimage/images.py:34-50 | three distinct new arrays equal to the prepared channels, or the same error |
| Images.SaturFixInPlace | desimage/images.py:47-50 | the channels become `SaturFix` of themselves, or the same error |
| Images.GetColorImage | desimage/images.py:3-81 | a new (rows, cols, 3) array equal to `ColorImage` of the inputs, or the same error; a `nonlinear` left out is 1.0 (`images.py:30`) |
| Images.StretchChannels | desimage/images.py:54-81 | a new (rows, cols, 3) array equal to `Stretched`, or the same error |
| Grids.CountTrue | desimage/images.py:139 | returns the number of true pixels (`w[0].size`) |
| ImageMaker.Blend | desimage/imagemaker.py:390-393 | the blend has the image's shape |
| ImageMaker.AddResult | desimage/imagemaker.py:390-393 | succeeds exactly when both exposure times exist, the other's is not 0 and the shapes agree; the result keeps the shape |
| ImageMaker.AddImageEqualises | desimage/imagemaker.py:390-393 | when the other image is this one at the other exposure time, adding leaves the image unchanged |
| ImageMaker.AddImageMean | desimage/imagemaker.py:390-393 | at equal exposure times each pixel becomes the mean of the two |
| ImageMaker.FlipRows | desimage/imagemaker.py:408 | row `i` of the result is row `rows-1-i` of the input, shape unchanged |
| ImageMaker.FlipMask | desimage/imagemaker.py:409-410 | a mask is flipped when present and stays absent otherwise |
| ImageMaker.FlipRowsInvolution | desimage/imagemaker.py:406-410 | flipping twice gives back the image |
| ImageMaker.PadTo | desimage/imagemaker.py:422-430 | the padded size is the smallest multiple of the factor that is at least the size |
| ImageMaker.Padded | desimage/imagemaker.py:432-434 | the padded image has the padded sizes |
| ImageMaker.PaddedContents | desimage/imagemaker.py:432-436 | the original sits at the top left, the rest is 0, and `images.rebin` accepts the padded image |
| ImageMaker.PadRebin | desimage/imagemaker.py:418-439 | factor 0 is a division by zero, a negative one a bad shape; a positive one always succeeds with `ceil(size/factor)` rows and columns |
| ImageMaker.RebinDivisible | desimage/imagemaker.py:422-436 | when the shape is already divisible nothing is padded and the result is `images.rebin` |
| ImageMaker.ImageTrans.constructor | desimage/imagemaker.py:387-388 | the object holds the given image, mask, exposure time and band |
| ImageMaker.ImageTrans.AddImage | desimage/imagemaker.py:390-393 | the image becomes `AddResult` or, on an error, is unchanged; the other fields are unchanged |
| ImageMaker.ImageTrans.FlipUd | desimage/imagemaker.py:406-410 | image and mask are flipped; exposure time and band unchanged |
| ImageMaker.ImageTrans.Rebin | desimage/imagemaker.py:418-439 | the image becomes `PadRebin` or, on an error, is unchanged; mask, exposure time and band unchanged |
| ImageMaker.MarkPositive | desimage/imagemaker.py:196-197 | fails exactly when a positive pixel falls outside the merged mask; otherwise keeps the merged mask's shape |
| ImageMaker.Merged | desimage/imagemaker.py:189-197 | a merged mask, when there is one, is a valid grid |
| ImageMaker.MergeStep | desimage/imagemaker.py:189-197 | an earlier failure is kept; a new failure needs a later band's mask, and is `NoFirstMask` exactly when no union was started, otherwise a pixel outside the union; a union keeps its shape |
| ImageMaker.MergedErrSticks | desimage/imagemaker.py:189-197 | once the merge has failed on a prefix, the whole merge is that failure |
| ImageMaker.MergeMasks | desimage/imagemaker.py:189-197 | the loop returns `Merged` of the masks |
| ImageMaker.MergedIsUnion | desimage/imagemaker.py:189-197 | with equal-shape non-negative masks and a first one present, the merge has the first mask's shape, is non-negative, and is positive exactly where some band's mask is |
| ImageMaker.MergedWithoutFirst | desimage/imagemaker.py:189-197 | without a first mask the result is "no mask" exactly when no band has one, and the failure otherwise |
| ImageMaker.CampaignTable | desimage/imagemaker.py:305-340 | every known campaign has three relative scales, the first 1.0 |
| ImageMaker.ScaleSetting | desimage/imagemaker.py:300-340 | explicit scales succeed exactly when `absscale` is given, with the nominal exposure time, `absscale` and the scales as given, and fail on the missing scale otherwise; without them the table of the upper-cased campaign decides |
| ImageMaker.Scaled3 | desimage/imagemaker.py:342 | `scales[k] = SCALE * relative[k]` |
| ImageMaker.GetScales | desimage/imagemaker.py:287-350 | returns `Scales` of the configuration and exposure times |
| ImageMaker.CorrectStep | desimage/imagemaker.py:345-349 | a channel with an exposure time fails exactly when it has no scale (`IndexError`) or the time is zero (division by zero); otherwise only scale `k` changes, to itself times `sqrt(nominal/exptime)` |
| ImageMaker.Corrected | desimage/imagemaker.py:345-349 | no contract of its own: the loop's result after `n` channels; `ImageMaker.CorrectedAt` and `ImageMaker.CorrectedErrSticks` state its properties |
| ImageMaker.Scales | desimage/imagemaker.py:287-350 | no contract of its own: the setting, then the correction loop; `ImageMaker.ScalesSucceed`, `ImageMaker.ScaleOfChannel`, `ImageMaker.ScalesBypassTable` and `ImageMaker.UnknownCampaign` state its properties |
| ImageMaker.CorrectScales | desimage/imagemaker.py:345-349 | the loop returns the specified corrected scales |
| ImageMaker.CorrectedErrSticks | desimage/imagemaker.py:345-349 | an error on a prefix is the result of the whole loop |
| ImageMaker.CorrectedAt | desimage/imagemaker.py:345-349 | the loop succeeds exactly when every image with an exposure time has a scale and a non-zero time; each scale is multiplied by `sqrt(nominal/exptime)` exactly when the exposure time is present |
| ImageMaker.ScalesSucceed | desimage/imagemaker.py:342-349 | for a known setting, success exactly when the exposure times allow it, with one scale per relative scale |
| ImageMaker.ScaleOfChannel | desimage/imagemaker.py:342-349 | channel `k` is `SCALE*relative[k]`, times the exposure correction when its time is present |
| ImageMaker.ScalesBypassTable | desimage/imagemaker.py:300-303 | explicit scales make the campaign irrelevant, and without `absscale` they fail |
| ImageMaker.UnknownCampaign | desimage/imagemaker.py:339-340 | an unknown upper-cased campaign is the `ValueError`; a campaign is usable exactly when it is in the table |
| ImageMaker.NewFiles | desimage/imagemaker.py:489-505 | the record holds the upper-cased campaign, the tile and the five files as given |
| ImageMaker.FilesBands | desimage/imagemaker.py:506-511 | a preset band list is kept; otherwise it is `[u]? g r i [z]?` by which files are present |
| ImageMaker.CoaddKey | desimage/imagemaker.py:567 | no contract of its own: the file-list key `<tile>-<band>`; `Batch.TileOfCoaddKey` reads the tile back from it |
| ImageMaker.CoaddFile | desimage/imagemaker.py:552-559 | no contract of its own: the listed file's base name in the temporary directory; `ImageMaker.CoaddFileKeepsName` states its name |
| ImageMaker.RemoteCoaddFile | desimage/imagemaker.py:543-550 | no contract of its own: the listed path under the rsync root; `ImageMaker.CoaddFileKeepsName` relates it to the local file |
| ImageMaker.LocalFile | desimage/imagemaker.py:552-568 | no contract of its own: the local coadd file of a listed band |
| ImageMaker.CoaddFileKeepsName | desimage/imagemaker.py:543-559 | the local coadd file has the remote file's base name |
| ImageMaker.KeysDistinct | desimage/imagemaker.py:667-668 | the `<band>file` and `<band>file_remote` keys never collide, and each determines its band |
| ImageMaker.WriteBand | desimage/imagemaker.py:666-668 | no contract of its own: one band's two keys written into the dictionary; `ImageMaker.WriteBandStep` states what it keeps |
| ImageMaker.Written | desimage/imagemaker.py:663-669 | no contract of its own: the dictionary after a prefix of the bands; `ImageMaker.WrittenHoldsFiles` and `ImageMaker.WrittenKey` state its contents |
| ImageMaker.WriteBandStep | desimage/imagemaker.py:666-668 | writing one band's two keys extends the dictionary's invariant to that band |
| ImageMaker.WrittenKey | desimage/imagemaker.py:663-669 | `<band>file` is a key exactly when the band is in the list |
| ImageMaker.WrittenHoldsFiles | desimage/imagemaker.py:663-669 | the dictionary built band by band holds every band's local and remote file |
| ImageMaker.GetFiles | desimage/imagemaker.py:561-568 | succeeds exactly when every band's `tile-band` key is in the file list; then the dictionary holds each band's files; otherwise the error names the first missing key |
| ImageMaker.NewFilesAuto | desimage/imagemaker.py:518-540 | succeeds exactly when every band is listed and g, r, i are among the bands; the record's files are the local coadd files and `ufile`/`zfile` are present exactly for the u/z bands |
| ImageMaker.SyncPattern | desimage/imagemaker.py:618-626 | no contract of its own: the brace pattern of band suffixes; `ImageMaker.SyncPatternListsBands` states its contents |
| ImageMaker.SyncSource | desimage/imagemaker.py:628 | no contract of its own: every `_g` of the remote path replaced by the pattern; `ImageMaker.SyncSourceSingle` states the single-`_g` case |
| ImageMaker.Suffixes | desimage/imagemaker.py:618-626 | one `_<band>` per band, in order |
| ImageMaker.SyncPatternListsBands | desimage/imagemaker.py:618-626 | the pattern is braced and splits on commas into the band suffixes |
| ImageMaker.InnerPattern | desimage/imagemaker.py:618-624 | the pattern built from `_g,_r,_i` equals the comma-join of the suffixes of the default bands |
| ImageMaker.SuffixesOfDefault | desimage/imagemaker.py:618-624 | the suffixes are `[_u]? _g _r _i [_z]?` |
| ImageMaker.SyncSourceSingle | desimage/imagemaker.py:628 | a remote path with a single `_g` has exactly that replaced by the pattern; one without `_g` is unchanged |
| ImageMaker.FrontName | desimage/imagemaker.py:658-661 | no contract of its own: `<tile>_gri`, then `_rebinNN` with a rebin factor |
| ImageMaker.OutputFront | desimage/imagemaker.py:652-662 | no contract of its own: the front name in the output directory; `ImageMaker.OutputFrontName` states its base name and the rebin read-back |
| ImageMaker.OutputFrontName | desimage/imagemaker.py:652-661 | the front's base name is `<tile>_gri` followed, when rebinned, by `_rebin` and digits reading back as the factor |
| FileNames.ListDir | desimage/files.py:3-7 | no contract of its own: `$DESDATA/jpg/lists`; `FileNames.FlistFileName` states it |
| FileNames.FlistFile | desimage/files.py:9-17 | no contract of its own; `FileNames.FlistFileName` states its name and directory |
| FileNames.BaseDir | desimage/files.py:19-27 | no contract of its own: `$DESDATA/jpg/<CAMPAIGN>`; `FileNames.CampaignCaseInsensitive` states its case independence |
| FileNames.OutputDir | desimage/files.py:30-36 | no contract of its own; `FileNames.DirectoryLayout` states its layout |
| FileNames.TempDir | desimage/files.py:38-43 | no contract of its own; `FileNames.DirectoryLayout` states its layout |
| FileNames.OutputName | desimage/files.py:53-62 | no contract of its own; `FileNames.OutputNameShape` and `FileNames.OutputPartsRoundTrip` state its shape |
| FileNames.OutputFile | desimage/files.py:45-64 | no contract of its own; `FileNames.ExtensionAppended` states how the extension is added |
| FileNames.LogFile | desimage/files.py:66-76 | no contract of its own; `FileNames.ExtensionAppended` relates it to the output file |
| FileNames.ScriptDir | desimage/files.py:81-86 | no contract of its own: `<base dir>/scripts` |
| FileNames.ScriptFile | desimage/files.py:88-96 | no contract of its own; `FileNames.ScriptFilesShareStem` states its name |
| FileNames.WqFile | desimage/files.py:98-111 | no contract of its own; `FileNames.ScriptFilesShareStem` states both variants |
| FileNames.LsfFile | desimage/files.py:113-117 | always fails on the undefined name `bands` |
| FileNames.FlistFileName | desimage/files.py:9-17 | the list file is `coadd-flist-<CAMPAIGN>.fits` in `$DESDATA/jpg/lists`, whatever the campaign's case |
| FileNames.CampaignCaseInsensitive | desimage/files.py:19-111 | every directory and file name is the same for a campaign and its upper case |
| FileNames.DirectoryLayout | desimage/files.py:30-43 | the output directory is `$DESDATA/jpg/<CAMPAIGN>/<tile>` and the temp directory is that plus `/sources` |
| FileNames.OutputNameShape | desimage/files.py:45-62 | the name is `tile-<bands>[-rebinNN].<ext>` with the rebin part exactly when a rebin is given |
| FileNames.DefaultExtDoubleDot | desimage/files.py:45-62 | the default extension `.jpg` gives a double dot |
| FileNames.OutputPartsRoundTrip | desimage/files.py:53-61 | the dash-joined parts split back into themselves, a third part exists exactly with a rebin, and its digits read back as the rebin |
| FileNames.ExtensionAppended | desimage/files.py:62-76 | the extension is appended verbatim, and the log file is the output file with extension `log` |
| FileNames.ScriptFilesShareStem | desimage/files.py:81-111 | the script is `<scripts>/<tile>-<bands>.sh` and the wq file the same stem with `.yaml` or `-missing.yaml` |
| Strings.Upper | desimage/files.py:15 | upper-casing keeps the length and maps every character |
| Strings.UpperIdempotent | desimage/imagemaker.py:524 | upper-casing an upper-cased campaign changes nothing |
| Strings.BasenameOfJoin | desimage/imagemaker.py:556-559 | joining a directory and a slash-free name has that name as base name |
| Strings.SplitJoin | desimage/batch.py:210-218 | a comma-joined list without commas in its items splits back into the list |
| Strings.ReplaceSingle | desimage/imagemaker.py:628 | replacing a pattern that occurs once replaces that occurrence only |
| Strings.Format02RoundTrip | desimage/files.py:59 | `%02d` of a natural reads back as it and has two digits below 100 |
| Batch.NewScriptMaker | desimage/batch.py:9-25 | campaign defaults to `y6a1_coadd`, types to `["jpg"]` (a scalar is wrapped), bands to g, r, i; given values are kept |
| Batch.TileOf | desimage/batch.py:40 | a key without its last two characters (empty for a shorter key) |
| Batch.TileOfCoaddKey | desimage/batch.py:38-41 | the tile of a `tile-b` key is the tile |
| Batch.TileList | desimage/batch.py:38-41 | no contract of its own: the dictionary keys in insertion order; `Batch.TileListSpec` states them |
| Batch.TileNames | desimage/batch.py:38-41 | the loop returns `TileList` of the keys |
| Batch.TileListSpec | desimage/batch.py:38-43 | the tile names are distinct and are exactly the tiles of the keys |
| Batch.BandsPresent | desimage/batch.py:67-74 | true exactly when every band's `tile-band` key is in the file list |
| Batch.NeedsImage | desimage/batch.py:49-59 | true exactly when some type's output image is missing |
| Batch.JobName | desimage/batch.py:168 | no contract of its own: `<tile>-rgb`; `Batch.WqTextFields` states where it lands in the wq text |
| Batch.ScriptText | desimage/batch.py:205-228 | no contract of its own; `Batch.ScriptTextRoundTrip` states its lines and fields |
| Batch.WqText | desimage/batch.py:170-196 | no contract of its own; `Batch.WqTextFields` states its lines and fields |
| Batch.ScriptTextRoundTrip | desimage/batch.py:205-228 | the script's second line is the command, whose five words are `des-make-image`, the types, campaign and bands options and the tile; types and bands split back on commas |
| Batch.WqTextFields | desimage/batch.py:168-196 | the wq text has 22 lines and lines 5, 14 and 19 carry the log file, the script and the job name `tile-rgb` |
| Batch.WriteScript | desimage/batch.py:205-232 | no contract of its own: writing the script text to the tile's script file |
| Batch.WriteWq | desimage/batch.py:147-203 | two actions: remove the job file's `.wqlog`, then write the tile's job file |
| Batch.WriteBatch | desimage/batch.py:76-85 | succeeds exactly for `wq`; `lsf` fails on the undefined `bands`; any other system is the `ValueError` |
| Batch.ClearBatch | desimage/batch.py:87-109 | succeeds exactly for `wq`; `lsf` fails on the missing `_clear_lsf`; any other system is the `ValueError` |
| Batch.ClearUndoesWrite | desimage/batch.py:98-109 | every file the wq write touches is removed by the wq clear |
| Batch.TileStep | desimage/batch.py:43-65 | a tile fails exactly when all its bands are present and the system is not `wq`; a tile without all bands does nothing; no tile step makes a directory |
| Batch.StartActions | desimage/batch.py:31-34 | no contract of its own: make the script directory when it does not exist |
| Batch.Plan | desimage/batch.py:27-65 | every run starts with making the missing script directory |
| Batch.ProcessTile | desimage/batch.py:43-65 | one tile's actions and failure are `TileStep` |
| Batch.Go | desimage/batch.py:27-65 | the run is `Plan` over the tile names |
| Batch.ImageFileCanBeScriptFile | desimage/batch.py:51-58 | with bands g, r, i, the image path of type `a-gri.sh` for tile `scripts` is the script path of tile `scripts-gri.a`, so a script written by `go` can decide a later tile's image test |
| Batch.PlanStops | desimage/batch.py:61-65 | once a tile fails, the rest of the tiles add nothing |
| Batch.PlanWqSucceeds | desimage/batch.py:43-65 | with `wq`, `go` never fails |
| Batch.PlanOtherSystemFails | desimage/batch.py:43-85 | with any other system, `go` succeeds exactly when no tile has all its bands |
| Batch.PlanTouchesCompleteTiles | desimage/batch.py:45-65 | every file action belongs to a tile with all bands present, and every file written to a tile with a missing image |

## Left out

- FITS reading and header lookup in `ImageTrans.__init__`, the PIL write in `write_image`, the rsync subprocess and `rmtree` of `sync`/`clean`, `make_dir`, and every file existence test, write and removal in `batch.py`: these are I/O. `go` is modelled as the list of actions it would perform, against a fixed set of existing files.
- `os.path.expandvars` of `$DESDATA` and `$DESREMOTE_RSYNC`: the expanded prefixes are parameters.
- The file-list cache `FlistCache`/`get_flist`: the coadd file list is a parameter.
- The exact values of `np.arcsinh` and `sqrt`: they are function parameters. Only properties that hold for any such function are proved.
- float32 and uint8 rounding, overflow, NaN and infinity: pixels are `real`.
- `images.propagate_missing_data` and `images.interpolate_bad` are not part of this model. They are called by `_make_imlist` but not defined in `images.py`.
- The orchestration in `_make_imlist`, `make_image` and `make_image_auto`. Their call sites are broken: `rebin` is undefined at line 216, `get_color_image` gets mismatched positional arguments at lines 240-247, `get_color_image_old` does not exist, and line 97 tests the builtin `type`. The callees are modelled instead.
- `ImageTrans.transpose`, `zero_bad_weightmap` and `scale_image` are outside the modelled part of the package and are not modelled.
- `ImageTrans` aliasing: `image` and `mask` are immutable `Grid` values, so two objects never share pixel storage.
- Printed messages.
- The text of `_write_lsf` is not modelled, because `get_lsf_file` always fails before it is used.
- Batch.Go: the `existing` file set is not updated by the actions `go` performs. A later decision can read a file that an earlier tile wrote only when tile and type names make an image path equal a script or wq path. For example, with bands g, r, i, the image of type `a-gri.sh` for tile `scripts` is the script of tile `scripts-gri.a` (`Batch.ImageFileCanBeScriptFile`). When `scripts-gri.a` comes first and both tiles are complete, the source then sees that script and clears instead of writing for `scripts`. The model ignores that case.
- Images.Rebin: the shape is divided with integer division. Python 3 computes `np.array(s)/factor` as floats there.
- Images.ByteScale: requires its input to be in [0,1]. The uint8 wrap-around for other inputs is not modelled.
- ImageMaker.AddResult: images of different shapes are an error. numpy broadcasting of compatible shapes is not modelled.
- Images.RgbSatur and Images.HardSatur: a zero maximum under the mask is reported as `NonFiniteFactor` and leaves the arrays unchanged. numpy would write `inf` or `nan` there.
- Images.Boost: indexes with exact integers. The source builds the index grid with the float step `old/new` (`images.py:103-105`), so its length is `ceil(old/step)` in floating point and output index `k` reads row `int(k*step)`. For factors such as 49, 98, 103, 107, 161, 187, 196 and 197 these differ: a 1×1 image boosted by 49 comes out 50×50, and row 49 of a 2-row image boosted by 49 repeats row 0.
- Images.BoostBlocks: holds for the exact-index boost only; for the factors above, the floating-point index grid puts some rows in the wrong block.
- Images.RebinBoost: holds for the exact-index boost only; for the factors above, the source's boost has a different shape or a wrong row, so rebinning it does not give back the input.
- Images.SaturFix: three channels of different shapes are refused (`ShapeMismatch`). numpy broadcasting of compatible shapes (a 1×3 channel against 2×3 ones) is not modelled.
- Images.Stretched: channels of different shapes are refused (`ShapeMismatch`). numpy broadcasts compatible shapes in `r + g + b` and the products; that is not modelled.
- Images.ColorImage: inputs of different but broadcast-compatible shapes are refused, while the source returns an image of the broadcast shape. For example, a 1×3 red and 2×3 green and blue inputs of zeros give a 2×3 black image in the source.
- Images.Prepared: the channels are prepared one by one and keep their own shapes; broadcasting happens only later in the source, and is not modelled.
- Strings.Upper: maps only the ASCII letters a-z. Python's `str.upper` also maps other letters, for example `é` to `É`, and `ß` to `SS`, which changes the length.
