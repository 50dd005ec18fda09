/**
 * The decision logic of `PhaseCorrelation.resample`.  Which library routine
 * runs, and with what block factors, is modelled; the interpolation and
 * averaging those routines perform, and the uint8 casts, are not.
 *
 * `k` stands for `int(1 / scale)` as the source computes it in floating
 * point; for 0 < scale <= 1 it is at least 1.
 */
module Resampling {

  /** The library call resample makes. */
  datatype Call =
    | Rescale(scale: real, multichannel: bool)   // skimage rescale, order 1
    | DownscaleLocalMean(factors: seq<int>)     // skimage downscale_local_mean

  /** Number of leading axes that are spatial: a 3-D image's last axis is its channels. */
  function SpatialAxes(ndim: nat): nat
  {
    if ndim == 3 then 2 else ndim
  }

  /**
   * The block-factor vector: one entry per axis, every spatial axis gets the
   * block size k, and the channel axis of a 3-D image gets 1, so channels are
   * never averaged together.
   */
  method DownscaleFactors(ndim: nat, k: int) returns (factors: array<int>)
    requires ndim >= 1
    ensures fresh(factors) && factors.Length == ndim
    ensures forall a :: 0 <= a < SpatialAxes(ndim) ==> factors[a] == k
    ensures ndim == 3 ==> factors[2] == 1
  {
    factors := new int[ndim](_ => k);
    if ndim == 3 {
      factors[ndim - 1] := 1;
    } else {
      factors[ndim - 1] := k;
    }
  }

  /**
   * A scale above 1 upsamples by linear interpolation, treating a 3-D image
   * as multichannel; any other scale downsamples by block means with the
   * factor vector above.  Either way the channel axis of a 3-D image is left
   * at its size.
   */
  method PlanResample(ndim: nat, scale: real, k: int) returns (call: Call)
    requires ndim >= 1 && scale > 0.0
    ensures scale > 1.0 <==> call.Rescale?
    ensures call.Rescale? ==> call.scale == scale && (call.multichannel <==> ndim == 3)
    ensures call.DownscaleLocalMean? ==>
      && |call.factors| == ndim
      && (forall a :: 0 <= a < SpatialAxes(ndim) ==> call.factors[a] == k)
      && (ndim == 3 ==> call.factors[2] == 1)
  {
    if scale > 1.0 {
      call := Rescale(scale, ndim == 3);
    } else {
      var factors := DownscaleFactors(ndim, k);
      call := DownscaleLocalMean(factors[..]);
    }
  }
}
