# Phase-correlation shift estimation: the exact decision logic

This project models the integer and index logic of `PhaseCorrelation` in
`code/phasecorr.py`, a phase-correlation image-registration routine. The
routine takes two same-shaped images and estimates the translation between
them. Fourier transforms produce a correlation surface. The peak of its
magnitude, read as a signed pixel offset, is the shift.

The floating-point numerics are left to numpy, scipy and skimage and are not
modelled. The logic around them is modelled and proved:

- **Peak location** (`get_shift`). `np.argmax` scans the flattened magnitude
  surface in row-major order and keeps the *first* maximum. `np.unravel_index`
  turns that flat index into `(row, col)`. Modules `ShiftEstimation` and
  `RowMajor` cover this.
- **Shift unwrapping** (`get_shift`). Each axis of extent `n` has the midpoint
  `fix(n/2)`. A peak coordinate past the midpoint has `n` subtracted. The
  result is the unique value congruent to the coordinate modulo `n` in the
  window `(fix(n/2) - n, fix(n/2)]`. The subtraction is done in place on the
  `shifts` vector.
- **Input checks and working images** (`cross_correlation`). The four
  assertions run in source order. Resampling happens when the factor is not 1.
  A 3-D image is cut down to its channel-0 plane. The returned shape is the
  working source's 2-D shape. This is module `CrossCorrelation`, with images
  held as in numpy: a shape and row-major samples (module `Images`).
- **Downscale factor vector** (`resample`). Every axis gets the block size
  `k = int(1/scale)`, except the channel axis of a 3-D image, which gets 1.
  Module `Resampling` also models the choice between upsampling and
  downsampling.

Errors are values of `CrossCorrelation.Error`. The four assertions of
`cross_correlation` can fail, and `image[:, :, 0]` fails on an image with no
channels. `EmptySurface` stands for numpy rejecting an empty working image
with a ValueError; in `get_shift` the forward FFT does this first, and
`np.argmax` would do the same on an empty surface. None of these failures
produces a shift.

- The block size is `int(1/scale)`, which truncates toward zero.
- Invalid inputs fail plain `assert` statements, which raise
  `AssertionError`. The model names the assertion that fails first.

## Model

| member | source | states |
|---|---|---|
| `RowMajor.Unravel` | code/phasecorr.py:102-103 | `unravel_index` of a flat index below `h*w` gives a cell inside the `h x w` grid whose row-major position is that index |
| `RowMajor.UnravelRavel` | code/phasecorr.py:102-103 | Unravelling a cell's flat position gives the cell back, so `unravel_index` is a bijection between flat positions and cells |
| `RowMajor.RavelOrder` | code/phasecorr.py:102 | Row-major scan order of cells is exactly the order of their flat positions, in both directions |
| `RowMajor.RavelInjective` | code/phasecorr.py:102-103 | Two cells with the same flat position are the same cell |
| `ShiftEstimation.ArgMax` | code/phasecorr.py:102 | An empty surface has no argmax. Otherwise the result is a flat position in bounds, its magnitude is at least every cell's, and every earlier position is strictly smaller (the first maximum wins) |
| `ShiftEstimation.FirstMaxIsPeak` | code/phasecorr.py:102-103 | The unravelled first maximum is the 2-D peak: in bounds, at least every cell, and strictly above every cell before it in row-major order |
| `ShiftEstimation.PeakUnique` | code/phasecorr.py:102 | A surface has at most one such peak, so the tie-break fixes the answer |
| `ShiftEstimation.Midpoint` | code/phasecorr.py:104 | `fix(n/2)` for an extent `n >= 0` is the `h` with `2h <= n < 2h + 2` |
| `ShiftEstimation.Unwrap` | code/phasecorr.py:104-106 | For `0 <= i < n`, the shift lies in `(fix(n/2) - n, fix(n/2)]`, is congruent to `i` modulo `n`, and is non-negative exactly when `i <= fix(n/2)` |
| `ShiftEstimation.UnwrapUnique` | code/phasecorr.py:104-106 | Any value in that window congruent to `i` modulo `n` is the unwrapped shift, so unwrapping is the only such map |
| `ShiftEstimation.UnwrapWrap` | code/phasecorr.py:104-106 | Reducing a windowed shift modulo `n` and unwrapping it again gives the shift back, so wrapping and unwrapping are inverse |
| `ShiftEstimation.UnwrapZero` | code/phasecorr.py:104-106 | A peak at index 0 gives shift 0 on that axis |
| `ShiftEstimation.UnwrapInPlace` | code/phasecorr.py:104-106 | The masked in-place subtraction replaces each coordinate by its unwrapped shift. This row also covers the helper `ShiftEstimation.Midpoints`, the midpoint comprehension of line 104, which the method compares against |
| `ShiftEstimation.GetShift` | code/phasecorr.py:102-107 | An empty surface gives `EmptySurface`. Otherwise both shift coordinates lie in their axis windows, and the shift taken modulo the surface's shape is the peak |
| `ShiftEstimation.EstimateShift` | code/phasecorr.py:100-107 | No shift unless every assertion holds; a failed check reports the first failing assertion. When the assertions hold, the working images reduce and the surface is non-empty, a shift is always produced. A failure of `WorkingImages` (a failed assertion, or `NoChannelZero` for a channel-less image) is returned as it is. An empty surface after `WorkingImages` succeeded gives `EmptySurface`. A shift that is produced satisfies the peak and window properties of `GetShift` |
| `CrossCorrelation.CheckInputs` | code/phasecorr.py:69-72 | All checks pass iff shapes are equal, both ndims are 2 or 3, and `0 < factor < 100`. A shape mismatch is reported exactly when there is one. The source-ndim failure is reported exactly when the shapes agree and the source is neither 2-D nor 3-D. The target-ndim assertion can never be the first to fail |
| `CrossCorrelation.Reduce` | code/phasecorr.py:81-82 | An image that is not 3-D passes through unchanged. A 3-D image with a channel 0 becomes `Channel0` of it, and one without fails with `NoChannelZero`, the only error. A reduced 2-D or 3-D image has the image's height and width as its shape |
| `Images.Channel0` | code/phasecorr.py:81-82 | `image[:, :, 0]` is an `H x W` plane whose sample at every `(r, c)` is the image's channel-0 sample at `(r, c)` |
| `CrossCorrelation.WorkingImages` | code/phasecorr.py:69-84 | A result only when the inputs are admissible; otherwise the first failing assertion. On admissible inputs there is a result exactly when both resampled images reduce, and otherwise the error is `NoChannelZero`. The working source and target are the reductions of the resampled source and target. The returned shape is the working source's shape, which is the 2-D spatial shape of the resampled source when that is 2-D or 3-D. This row also covers the helper `CrossCorrelation.Resampled`, the choice at lines 74-79 to resample only when the factor is not 1 |
| `CrossCorrelation.UnitFactorWorkingImages` | code/phasecorr.py:74-84 | At factor 1, a 2-D pair is used unchanged with its own shape. A 3-D pair becomes its channel-0 planes with shape `(H, W)`, or fails if there are no channels |
| `Resampling.DownscaleFactors` | code/phasecorr.py:52-54 | The factor vector has one entry per axis. Every spatial axis gets `k`, and the channel axis of a 3-D image gets 1 |
| `Resampling.PlanResample` | code/phasecorr.py:49-55 | A scale above 1 upsamples, multichannel exactly for 3-D images. Any other scale downsamples with the factor vector above, so a 3-D image's channel axis keeps its size either way |

## Left out

- FFT, inverse FFT, complex cast and conjugate product (lines 43-45, 85-89): floating-point numerics inside numpy. The magnitude surface `np.abs(cross_corr)` is an input array of reals.
- The numerics of `resample` (lines 48-55): skimage interpolation, block averaging and uint8 casts. `WorkingImages` takes the resampler as a function parameter, and `PlanResample` only models the call it makes.
- `Resampling.DownscaleFactors`: takes `k` as a parameter. It does not compute `int(1/scale)` from the float scale, so floating-point rounding of `1/scale` is not modelled.
- `Resampling.DownscaleFactors`: requires `ndim >= 1`. On a 0-D image the source's `factors[-1]` raises, and no caller passes one.
- `transform` (lines 109-133): spline shifting with a mean fill value, the back-resampling, and the `print` of the shift. These are float interpolation and console output.
- `np.copy` in the constructor (lines 24-25): it only prevents aliasing. Inputs here are immutable values, so there is no class; the object's fields are never updated after construction.
- `ShiftEstimation.GetShift`: shifts are integers. The source holds them in float64, which represents these small integers exactly. NaN magnitudes, which `np.argmax` would pick first, do not exist among Dafny reals.
- `ShiftEstimation.EstimateShift`: the surface is not computed from the working images. The method requires it to have the working shape, because the source unravels with the surface's shape and takes midpoints from the working shape. Surface broadcasting between differently-shaped working images is not modelled.
- Running Python with `-O` removes the assertions. The model follows ordinary execution, where they are checked.
- code/plot.py (matplotlib rendering) and code/dataset.py (rasterio reading, directory listing, the fixed crop) are I/O glue and are not part of this model.
