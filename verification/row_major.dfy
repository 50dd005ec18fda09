/**
 * Row-major (C order) index arithmetic, as numpy uses it for `argmax` over a
 * flattened array and for `unravel_index`: cell (r, c) of an h-by-w grid sits
 * at flat position r * w + c.
 */
module RowMajor {

  /** Flat position of cell (r, c) in a grid with w columns. */
  function Ravel(r: nat, c: nat, w: nat): nat
  {
    r * w + c
  }

  /** Cell (r1, c1) comes strictly before cell (r2, c2) in a row-major scan. */
  predicate Before(r1: nat, c1: nat, r2: nat, c2: nat)
  {
    r1 < r2 || (r1 == r2 && c1 < c2)
  }

  lemma MulMono(a: nat, b: nat, w: nat)
    requires a <= b
    ensures a * w <= b * w
  {
  }

  /** Every cell of an h-by-w grid has a flat position below h * w. */
  lemma RavelBound(r: nat, c: nat, h: nat, w: nat)
    requires r < h && c < w
    ensures Ravel(r, c, w) < h * w
  {
    MulMono(r + 1, h, w);
  }

  /**
   * `np.unravel_index(k, (h, w))`: the cell at flat position k.  The result is
   * the unique (row, col) with col < w and Ravel(row, col, w) == k, and it lies
   * inside the grid.
   */
  function Unravel(k: nat, h: nat, w: nat): (rc: (nat, nat))
    requires k < h * w
    ensures rc.0 < h && rc.1 < w
    ensures Ravel(rc.0, rc.1, w) == k
  {
    assert w > 0;
    UnravelRowBound(k, h, w);
    (k / w, k % w)
  }

  lemma UnravelRowBound(k: nat, h: nat, w: nat)
    requires k < h * w
    ensures w > 0 && k / w < h
  {
    if k / w >= h {
      MulMono(h, k / w, w);
    }
  }

  /** Ravel and Unravel are inverse to each other on the cells of the grid. */
  lemma UnravelRavel(r: nat, c: nat, h: nat, w: nat)
    requires r < h && c < w
    ensures Ravel(r, c, w) < h * w
    ensures Unravel(Ravel(r, c, w), h, w) == (r, c)
  {
    RavelBound(r, c, h, w);
    var rc := Unravel(Ravel(r, c, w), h, w);
    RavelInjective(rc.0, rc.1, r, c, w);
  }

  /** Two cells with the same flat position are the same cell. */
  lemma RavelInjective(r1: nat, c1: nat, r2: nat, c2: nat, w: nat)
    requires c1 < w && c2 < w
    requires Ravel(r1, c1, w) == Ravel(r2, c2, w)
    ensures r1 == r2 && c1 == c2
  {
    if r1 < r2 {
      RavelOrder(r1, c1, r2, c2, w);
    } else if r2 < r1 {
      RavelOrder(r2, c2, r1, c1, w);
    }
  }

  /** The row-major scan order is the order of flat positions. */
  lemma RavelOrder(r1: nat, c1: nat, r2: nat, c2: nat, w: nat)
    requires c1 < w && c2 < w
    ensures Before(r1, c1, r2, c2) <==> Ravel(r1, c1, w) < Ravel(r2, c2, w)
  {
    if r1 < r2 {
      MulMono(r1 + 1, r2, w);
    } else if r2 < r1 {
      MulMono(r2 + 1, r1, w);
    }
  }
}
