/**
 * `PhaseCorrelation.get_shift`: locate the first maximum of the correlation
 * magnitudes in row-major order, turn its flat index into (row, col), and
 * map each coordinate from the circular range [0, n) to a signed shift by
 * subtracting the extent n from coordinates past the axis midpoint.
 *
 * The surface is given as its magnitudes, `np.abs(cross_corr)`, an h x w
 * array of reals.
 */
module ShiftEstimation {
  import opened Wrappers
  import opened RowMajor
  import opened Images
  import opened CrossCorrelation

  // ---------------------------------------------------------------------
  // Circular-to-linear unwrapping (line 104-106)

  /** `np.fix(n / 2)`: truncating n / 2 toward zero, i.e. half of n rounded down. */
  function Midpoint(n: nat): (h: nat)
    ensures 2 * h <= n < 2 * h + 2
  {
    n / 2
  }

  /** The midpoints of every axis of a shape. */
  function Midpoints(shape: seq<nat>): seq<nat>
  {
    seq(|shape|, a requires 0 <= a < |shape| => Midpoint(shape[a]))
  }

  /** The window of signed shifts along an axis of extent n: (Midpoint(n) - n, Midpoint(n)]. */
  predicate InWindow(s: int, n: nat)
  {
    Midpoint(n) - n < s <= Midpoint(n)
  }

  /**
   * The signed shift for peak coordinate i on an axis of extent n.  It lies in
   * the window, is congruent to i modulo n, and is non-negative exactly when i
   * is at most the midpoint.
   */
  function Unwrap(i: nat, n: nat): (s: int)
    requires i < n
    ensures InWindow(s, n)
    ensures s % n == i
    ensures s >= 0 <==> i <= Midpoint(n)
  {
    if i > Midpoint(n) then i - n else i
  }

  /**
   * Unwrap is the only choice: any value in the window that is congruent to i
   * modulo n is Unwrap(i, n).
   */
  lemma UnwrapUnique(i: nat, n: nat, t: int)
    requires i < n
    requires InWindow(t, n) && t % n == i
    ensures t == Unwrap(i, n)
  {
    if t >= 0 {
      assert t < n;
      assert t % n == t;
    } else {
      assert 0 <= t + n < n;
      assert t % n == t + n;
    }
  }

  /** Wrapping a shift of the window back into [0, n) and unwrapping it again gives the shift back. */
  lemma UnwrapWrap(s: int, n: nat)
    requires n > 0 && InWindow(s, n)
    ensures Unwrap(s % n, n) == s
  {
    UnwrapUnique(s % n, n, s);
  }

  /** A peak at index 0 means no shift along that axis. */
  lemma UnwrapZero(n: nat)
    requires n > 0
    ensures Unwrap(0, n) == 0
  {
  }

  /**
   * `shifts[shifts > midpoints] -= shape[shifts > midpoints]`: every
   * coordinate is replaced, in place, by its unwrapped shift.
   */
  method UnwrapInPlace(shifts: array<int>, shape: seq<nat>)
    requires shifts.Length == |shape|
    requires forall a :: 0 <= a < |shape| ==> 0 <= shifts[a] < shape[a]
    modifies shifts
    ensures forall a :: 0 <= a < |shape| ==> shifts[a] == Unwrap(old(shifts[a]), shape[a])
  {
    var midpoints := Midpoints(shape);
    for a := 0 to shifts.Length
      invariant forall b :: 0 <= b < a ==> shifts[b] == Unwrap(old(shifts[b]), shape[b])
      invariant forall b :: a <= b < shifts.Length ==> shifts[b] == old(shifts[b])
    {
      if shifts[a] > midpoints[a] {
        shifts[a] := shifts[a] - shape[a];
      }
    }
  }

  // ---------------------------------------------------------------------
  // Peak location (lines 102-103)

  /** The magnitude at flat row-major position k. */
  function FlatAt(m: array2<real>, k: nat): real
    reads m
    requires k < m.Length0 * m.Length1
  {
    var rc := Unravel(k, m.Length0, m.Length1);
    m[rc.0, rc.1]
  }

  /** k is the flat position of the first maximum in row-major order. */
  ghost predicate IsFirstMax(m: array2<real>, k: nat)
    reads m
  {
    && k < m.Length0 * m.Length1
    && (forall j: nat :: j < m.Length0 * m.Length1 ==> FlatAt(m, j) <= FlatAt(m, k))
    && (forall j: nat :: j < k ==> FlatAt(m, j) < FlatAt(m, k))
  }

  /**
   * (row, col) is the peak: inside the surface, at least as large as every
   * cell, and strictly larger than every cell before it in row-major order.
   */
  ghost predicate IsPeak(m: array2<real>, row: nat, col: nat)
    reads m
  {
    && row < m.Length0 && col < m.Length1
    && (forall i: nat, j: nat :: i < m.Length0 && j < m.Length1 ==> m[i, j] <= m[row, col])
    && (forall i: nat, j: nat :: i < m.Length0 && j < m.Length1 && Before(i, j, row, col) ==> m[i, j] < m[row, col])
  }

  /**
   * `np.argmax` over the flattened surface: a scan that keeps the first
   * position holding the largest magnitude seen so far.  An empty surface has
   * no maximum (numpy raises).
   */
  method ArgMax(m: array2<real>) returns (r: Option<nat>)
    ensures r.None? <==> m.Length0 == 0 || m.Length1 == 0
    ensures r.Some? ==> IsFirstMax(m, r.value)
  {
    var h, w := m.Length0, m.Length1;
    if h == 0 || w == 0 {
      return None;
    }
    var n := h * w;
    var best := 0;
    var bestValue := m[0, 0];
    var k := 1;
    while k < n
      invariant 1 <= k <= n && best < k
      invariant bestValue == FlatAt(m, best)
      invariant forall j: nat :: j < k ==> FlatAt(m, j) <= bestValue
      invariant forall j: nat :: j < best ==> FlatAt(m, j) < bestValue
    {
      var rc := Unravel(k, h, w);
      var v := m[rc.0, rc.1];
      if v > bestValue {
        best, bestValue := k, v;
      }
      k := k + 1;
    }
    return Some(best);
  }

  /** The unravelled first maximum is the peak. */
  lemma FirstMaxIsPeak(m: array2<real>, k: nat)
    requires IsFirstMax(m, k)
    ensures var rc := Unravel(k, m.Length0, m.Length1); IsPeak(m, rc.0, rc.1)
  {
    var h, w := m.Length0, m.Length1;
    var rc := Unravel(k, h, w);
    forall i: nat, j: nat | i < h && j < w
      ensures m[i, j] <= m[rc.0, rc.1]
      ensures Before(i, j, rc.0, rc.1) ==> m[i, j] < m[rc.0, rc.1]
    {
      UnravelRavel(i, j, h, w);
      var f := Ravel(i, j, w);
      assert FlatAt(m, f) == m[i, j];
      RavelOrder(i, j, rc.0, rc.1, w);
    }
  }

  /** A surface has at most one peak. */
  lemma PeakUnique(m: array2<real>, r1: nat, c1: nat, r2: nat, c2: nat)
    requires IsPeak(m, r1, c1) && IsPeak(m, r2, c2)
    ensures r1 == r2 && c1 == c2
  {
    if Before(r1, c1, r2, c2) {
      assert false;
    } else if Before(r2, c2, r1, c1) {
      assert false;
    }
  }

  // ---------------------------------------------------------------------
  // get_shift

  /** The displacement (rows, columns) of the target relative to the source. */
  datatype Shift = Shift(row: int, col: int)

  /**
   * Lines 102-107 on a given surface of magnitudes.  An empty surface gives
   * no shift.  Otherwise each coordinate of the shift lies in its axis window,
   * and wrapping the shift back into the surface lands on the peak.
   */
  method GetShift(m: array2<real>) returns (r: Result<Shift, Error>)
    ensures r.Err? <==> m.Length0 == 0 || m.Length1 == 0
    ensures r.Err? ==> r.error == EmptySurface
    ensures r.Ok? ==>
      && m.Length0 > 0 && m.Length1 > 0
      && InWindow(r.value.row, m.Length0) && InWindow(r.value.col, m.Length1)
      && IsPeak(m, r.value.row % m.Length0, r.value.col % m.Length1)
  {
    var peak := ArgMax(m);
    if peak.None? {
      return Err(EmptySurface);
    }
    var h, w := m.Length0, m.Length1;
    var maxima := Unravel(peak.value, h, w);
    FirstMaxIsPeak(m, peak.value);
    var shape := [h, w];
    var shifts := new int[2];
    shifts[0], shifts[1] := maxima.0, maxima.1;
    UnwrapInPlace(shifts, shape);
    r := Ok(Shift(shifts[0], shifts[1]));
  }

  /**
   * get_shift from the inputs: the assertions and working images of
   * cross_correlation first, then the peak search on the magnitude surface
   * correlating the working images, which has the working shape.  No shift
   * is produced unless every assertion holds; once they hold and the working
   * images reduce, a non-empty surface always yields a shift.  A failure of
   * cross_correlation is passed on as it is; an empty surface after it
   * succeeded gives EmptySurface.
   */
  method EstimateShift(src: Image, target: Image, factor: real, resample: Resampler, m: array2<real>)
    returns (r: Result<Shift, Error>)
    requires WorkingImages(src, target, factor, resample).Ok? ==>
      WorkingImages(src, target, factor, resample).value.shape == [m.Length0, m.Length1]
    ensures !Admissible(src, target, factor) ==> r.Err? && CheckInputs(src, target, factor) == Some(r.error)
    ensures r.Ok? ==>
      && Admissible(src, target, factor)
      && WorkingImages(src, target, factor, resample).Ok?
      && m.Length0 > 0 && m.Length1 > 0
      && InWindow(r.value.row, m.Length0) && InWindow(r.value.col, m.Length1)
      && IsPeak(m, r.value.row % m.Length0, r.value.col % m.Length1)
    ensures (Admissible(src, target, factor) && WorkingImages(src, target, factor, resample).Ok?
             && m.Length0 > 0 && m.Length1 > 0) ==> r.Ok?
    ensures Admissible(src, target, factor) && r.Err? ==> r.error in {NoChannelZero, EmptySurface}
    ensures WorkingImages(src, target, factor, resample).Err? ==>
      r == Err(WorkingImages(src, target, factor, resample).error)
    ensures WorkingImages(src, target, factor, resample).Ok? && (m.Length0 == 0 || m.Length1 == 0) ==>
      r == Err(EmptySurface)
  {
    var working := WorkingImages(src, target, factor, resample);
    if working.Err? {
      return Err(working.error);
    }
    r := GetShift(m);
  }
}
