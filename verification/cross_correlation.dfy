/**
 * The integer-valued part of `PhaseCorrelation.cross_correlation`: the input
 * assertions, the choice of working images (resampled or not) and their
 * reduction to one 2-D plane, and the shape that goes with the surface.  The
 * Fourier transforms and the conjugate product are not modelled; the
 * resampler is a parameter (see module Resampling for its factor vector).
 */
module CrossCorrelation {
  import opened Wrappers
  import opened Images

  /**
   * Why a registration produces no result.  The first four are the assertions
   * of cross_correlation, in the order they are checked; NoChannelZero is the
   * IndexError of `image[:, :, 0]` on an image with no channels; EmptySurface
   * is numpy rejecting an empty working image with a ValueError, which the
   * forward FFT does first in get_shift (np.argmax would do the same on an
   * empty surface).
   */
  datatype Error =
    | ShapeMismatch
    | SourceNdim
    | TargetNdim
    | FactorOutOfRange
    | NoChannelZero
    | EmptySurface

  /** A resampling routine: an image and a scale factor give a new image. */
  type Resampler = (Image, real) -> Image

  /** Everything the assertions of cross_correlation demand. */
  predicate Admissible(src: Image, target: Image, factor: real)
  {
    && src.shape == target.shape
    && (Ndim(src) == 2 || Ndim(src) == 3)
    && (Ndim(target) == 2 || Ndim(target) == 3)
    && 0.0 < factor < 100.0
  }

  /**
   * The four assertions, checked in order; the first that fails is reported.
   * All pass exactly when the inputs are admissible; a shape mismatch is
   * reported whenever there is one; and the target's dimensionality check can
   * never be the one that fails, since by then the shapes are known equal.
   */
  function CheckInputs(src: Image, target: Image, factor: real): (o: Option<Error>)
    ensures o.None? <==> Admissible(src, target, factor)
    ensures o == Some(ShapeMismatch) <==> src.shape != target.shape
    ensures o == Some(SourceNdim) <==> src.shape == target.shape && !(Ndim(src) == 2 || Ndim(src) == 3)
    ensures o != Some(TargetNdim)
    ensures o.Some? ==> o.value in {ShapeMismatch, SourceNdim, FactorOutOfRange}
  {
    if src.shape != target.shape then Some(ShapeMismatch)
    else if !(Ndim(src) == 2 || Ndim(src) == 3) then Some(SourceNdim)
    else if !(Ndim(target) == 2 || Ndim(target) == 3) then Some(TargetNdim)
    else if !(0.0 < factor < 100.0) then Some(FactorOutOfRange)
    else None
  }

  /** The image correlation works on: resampled unless the factor is 1. */
  function Resampled(a: Image, factor: real, resample: Resampler): Image
  {
    if factor != 1.0 then resample(a, factor) else a
  }

  /** A 3-D image is cut down to its channel-0 plane; others pass through. */
  function Reduce(a: Image): (r: Result<Image, Error>)
    ensures Ndim(a) == 3 ==> (r.Ok? <==> a.shape[2] > 0)
    ensures Ndim(a) != 3 ==> r == Ok(a)
    ensures Ndim(a) == 3 && a.shape[2] > 0 ==> r == Ok(Channel0(a))
    ensures r.Err? ==> r.error == NoChannelZero
    ensures r.Ok? && (Ndim(a) == 2 || Ndim(a) == 3) ==> r.value.shape == a.shape[..2]
  {
    if Ndim(a) == 3 then
      if a.shape[2] == 0 then Err(NoChannelZero) else Ok(Channel0(a))
    else
      Ok(a)
  }

  /** The two 2-D working images and the shape returned beside the surface. */
  datatype Working = Working(src: Image, target: Image, shape: seq<nat>)

  /**
   * Lines 69-84 of cross_correlation.  No result unless every assertion
   * holds, and then the error is the first failing assertion.  On admissible
   * inputs there is a result exactly when both resampled images reduce, and
   * the working images are their reductions.  The shape
   * returned is the source working image's shape, which is the 2-D spatial
   * shape of the resampled source whenever that is 2-D or 3-D.
   */
  function WorkingImages(src: Image, target: Image, factor: real, resample: Resampler): (r: Result<Working, Error>)
    ensures r.Ok? ==> Admissible(src, target, factor)
    ensures !Admissible(src, target, factor) ==> r.Err? && CheckInputs(src, target, factor) == Some(r.error)
    ensures Admissible(src, target, factor) ==>
      (r.Ok? <==> Reduce(Resampled(src, factor, resample)).Ok? && Reduce(Resampled(target, factor, resample)).Ok?)
    ensures Admissible(src, target, factor) && r.Err? ==> r.error == NoChannelZero
    ensures r.Ok? ==>
      && Reduce(Resampled(src, factor, resample)) == Ok(r.value.src)
      && Reduce(Resampled(target, factor, resample)) == Ok(r.value.target)
    ensures r.Ok? ==> r.value.shape == r.value.src.shape
    ensures r.Ok? ==>
      var s := Resampled(src, factor, resample);
      (Ndim(s) == 2 || Ndim(s) == 3) ==> Ndim(r.value.src) == 2 && r.value.shape == s.shape[..2]
  {
    match CheckInputs(src, target, factor)
    case Some(e) => Err(e)
    case None =>
      var s :- Reduce(Resampled(src, factor, resample));
      var t :- Reduce(Resampled(target, factor, resample));
      Ok(Working(s, t, s.shape))
  }

  /**
   * At factor 1 nothing is resampled: a 2-D pair is used as it is, a 3-D pair
   * is reduced to its channel-0 planes, and the shape is the inputs' height
   * and width.
   */
  lemma UnitFactorWorkingImages(src: Image, target: Image, resample: Resampler)
    requires Admissible(src, target, 1.0)
    ensures Ndim(src) == 2 ==>
      WorkingImages(src, target, 1.0, resample) == Ok(Working(src, target, src.shape))
    ensures Ndim(src) == 3 && src.shape[2] > 0 ==>
      WorkingImages(src, target, 1.0, resample) == Ok(Working(Channel0(src), Channel0(target), src.shape[..2]))
    ensures Ndim(src) == 3 && src.shape[2] == 0 ==>
      WorkingImages(src, target, 1.0, resample) == Err(NoChannelZero)
  {
  }
}
