/**
 * Images as numpy holds them: a shape and the samples in row-major order.
 * A 2-D image is height x width, a 3-D image height x width x channels.
 */
module Images {
  import opened RowMajor

  /** An unsigned 8-bit sample. */
  newtype byte = x: int | 0 <= x < 256

  /** Number of elements of an array of the given shape. */
  function Product(shape: seq<nat>): nat
  {
    if shape == [] then 1 else shape[0] * Product(shape[1..])
  }

  datatype NdArray = NdArray(shape: seq<nat>, data: seq<byte>)

  /** An array whose sample count matches its shape. */
  type Image = a: NdArray | |a.data| == Product(a.shape) witness NdArray([], [0])

  function Ndim(a: Image): nat
  {
    |a.shape|
  }

  lemma Product2(h: nat, w: nat)
    ensures Product([h, w]) == h * w
  {
    assert [h, w][1..] == [w];
    assert [w][1..] == [];
    assert Product([w]) == w * Product([]) == w;
  }

  lemma Product3(h: nat, w: nat, c: nat)
    ensures Product([h, w, c]) == (h * w) * c
  {
    assert [h, w, c][1..] == [w, c];
    Product2(w, c);
  }

  /** Sample (r, c) of a 2-D image. */
  function At2(a: Image, r: nat, c: nat): byte
    requires Ndim(a) == 2 && r < a.shape[0] && c < a.shape[1]
  {
    assert a.shape == [a.shape[0], a.shape[1]];
    Product2(a.shape[0], a.shape[1]);
    RavelBound(r, c, a.shape[0], a.shape[1]);
    a.data[Ravel(r, c, a.shape[1])]
  }

  /** Sample (r, c, ch) of a 3-D image. */
  function At3(a: Image, r: nat, c: nat, ch: nat): byte
    requires Ndim(a) == 3 && r < a.shape[0] && c < a.shape[1] && ch < a.shape[2]
  {
    var h, w, nc := a.shape[0], a.shape[1], a.shape[2];
    assert a.shape == [h, w, nc];
    Product3(h, w, nc);
    RavelBound(r, c, h, w);
    RavelBound(Ravel(r, c, w), ch, h * w, nc);
    a.data[Ravel(Ravel(r, c, w), ch, nc)]
  }

  /** Row-major samples of the channel-0 plane of an h x w x nc image. */
  function PlaneData(a: Image, h: nat, w: nat, nc: nat): seq<byte>
    requires a.shape == [h, w, nc] && nc > 0
  {
    Product3(h, w, nc);
    seq(h * w, k requires 0 <= k < h * w =>
      RavelBound(k, 0, h * w, nc);
      a.data[Ravel(k, 0, nc)])
  }

  /**
   * `image[:, :, 0]`: the channel-0 plane of a 3-D image with at least one
   * channel.  The plane is height x width and holds, at every (r, c), the
   * channel-0 sample of that pixel.
   */
  function Channel0(a: Image): (p: Image)
    requires Ndim(a) == 3 && a.shape[2] > 0
    ensures p.shape == [a.shape[0], a.shape[1]]
    ensures forall r: nat, c: nat :: r < a.shape[0] && c < a.shape[1] ==> At2(p, r, c) == At3(a, r, c, 0)
  {
    var h, w, nc := a.shape[0], a.shape[1], a.shape[2];
    assert a.shape == [h, w, nc];
    Product2(h, w);
    var p: Image := NdArray([h, w], PlaneData(a, h, w, nc));
    Channel0Cells(a, p, h, w, nc);
    p
  }

  lemma Channel0Cells(a: Image, p: Image, h: nat, w: nat, nc: nat)
    requires a.shape == [h, w, nc] && nc > 0
    requires p.shape == [h, w] && p.data == PlaneData(a, h, w, nc)
    ensures forall r: nat, c: nat :: r < h && c < w ==> At2(p, r, c) == At3(a, r, c, 0)
  {
    forall r: nat, c: nat | r < h && c < w
      ensures At2(p, r, c) == At3(a, r, c, 0)
    {
      RavelBound(r, c, h, w);
    }
  }
}
