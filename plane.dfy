/**
 * The sampled complex plane: `ComplexPlaneNP` keeps the bounds and sample
 * counts of both axes, a transformation `f`, and the grid `plane` of values
 * `f(x + y*1j)` that `refresh` recomputes.
 */
module Plane {
  import opened ComplexNumbers
  import EscapeTime

  /** A grid of values: a sequence of rows. */
  type Grid<T> = seq<seq<T>>

  /** Every row of `g` has `cols` entries and there are `rows` rows. */
  ghost predicate HasShape<T>(g: Grid<T>, rows: nat, cols: nat)
  {
    |g| == rows && forall i :: 0 <= i < rows ==> |g[i]| == cols
  }

  /** The spacing of `n` inclusive samples from `lo` to `hi` (`0` for fewer than two). */
  function Spacing(lo: real, hi: real, n: nat): real
  {
    if n <= 1 then 0.0 else (hi - lo) / ((n - 1) as real)
  }

  /** The `k`-th of `n` inclusive samples from `lo` to `hi`. */
  function Sample(lo: real, hi: real, n: nat, k: nat): real
  {
    lo + (k as real) * Spacing(lo, hi, n)
  }

  /** `n - 1` steps of the spacing cover the interval exactly. */
  lemma SpacingCovers(lo: real, hi: real, n: nat)
    requires n >= 2
    ensures ((n - 1) as real) * Spacing(lo, hi, n) == hi - lo
  {
  }

  /** Samples with indices in `[0, n)` lie between the ends. */
  lemma SampleBetween(lo: real, hi: real, n: nat, k: nat)
    requires lo <= hi && k < n
    ensures lo <= Sample(lo, hi, n, k) <= hi
  {
    if n >= 2 {
      var d := Spacing(lo, hi, n);
      SpacingCovers(lo, hi, n);
      assert d >= 0.0;
      assert (k as real) * d <= ((n - 1) as real) * d;
    }
  }

  /** Consecutive samples differ by the spacing. */
  lemma SampleStep(lo: real, hi: real, n: nat, k: nat)
    requires n >= 2
    ensures Sample(lo, hi, n, k + 1) - Sample(lo, hi, n, k) == Spacing(lo, hi, n)
  {
  }

  /**
   * `np.linspace(lo, hi, n)`: `n` evenly spaced samples from `lo` to `hi`,
   * both ends included; a single sample is `lo`, and `n == 0` gives none.
   */
  function Linspace(lo: real, hi: real, n: nat): (r: seq<real>)
    ensures |r| == n
    ensures n >= 1 ==> r[0] == lo
    ensures n >= 2 ==> r[n - 1] == hi
    ensures n == 1 ==> r == [lo]
    ensures forall k :: 0 <= k < n - 1 ==> r[k + 1] - r[k] == (hi - lo) / ((n - 1) as real)
    ensures lo <= hi ==> forall k :: 0 <= k < n ==> lo <= r[k] <= hi
  {
    var r := seq(n, k requires 0 <= k < n => Sample(lo, hi, n, k));
    LinspaceFacts(lo, hi, n, r);
    r
  }

  lemma LinspaceFacts(lo: real, hi: real, n: nat, r: seq<real>)
    requires |r| == n && forall k :: 0 <= k < n ==> r[k] == Sample(lo, hi, n, k)
    ensures n >= 2 ==> r[n - 1] == hi
    ensures forall k :: 0 <= k < n - 1 ==> r[k + 1] - r[k] == (hi - lo) / ((n - 1) as real)
    ensures lo <= hi ==> forall k :: 0 <= k < n ==> lo <= r[k] <= hi
  {
    if n >= 2 {
      SpacingCovers(lo, hi, n);
    }
    forall k | 0 <= k < n - 1
      ensures r[k + 1] - r[k] == (hi - lo) / ((n - 1) as real)
    {
      SampleStep(lo, hi, n, k);
    }
    if lo <= hi {
      forall k | 0 <= k < n
        ensures lo <= r[k] <= hi
      {
        SampleBetween(lo, hi, n, k);
      }
    }
  }

  /**
   * `np.meshgrid(xs, ys)`: two grids of `|ys|` rows and `|xs|` columns; the
   * first repeats `xs` as every row, the second repeats `ys[i]` along row `i`.
   */
  function Meshgrid(xs: seq<real>, ys: seq<real>): (g: (Grid<real>, Grid<real>))
    ensures HasShape(g.0, |ys|, |xs|) && HasShape(g.1, |ys|, |xs|)
    ensures forall i, j :: 0 <= i < |ys| && 0 <= j < |xs| ==> g.0[i][j] == xs[j] && g.1[i][j] == ys[i]
  {
    (seq(|ys|, _ => xs), seq(|ys|, i requires 0 <= i < |ys| => seq(|xs|, _ => ys[i])))
  }

  /** `X + Y*1j` on two grids of one shape: the entry at `[i][j]` is `X[i][j] + Y[i][j]*1j`. */
  function ComplexGrid(X: Grid<real>, Y: Grid<real>, rows: nat, cols: nat): (Z: Grid<Complex>)
    requires HasShape(X, rows, cols) && HasShape(Y, rows, cols)
    ensures HasShape(Z, rows, cols)
    ensures forall i, j :: 0 <= i < rows && 0 <= j < cols ==> Z[i][j] == Complex(X[i][j], Y[i][j])
  {
    seq(rows, i requires 0 <= i < rows => seq(cols, j requires 0 <= j < cols => Complex(X[i][j], Y[i][j])))
  }

  /** `f` applied to each entry of one row. */
  function MapRow<T>(f: Complex -> T, row: seq<Complex>): (r: seq<T>)
    ensures |r| == |row|
    ensures forall j :: 0 <= j < |row| ==> r[j] == f(row[j])
  {
    if row == [] then [] else [f(row[0])] + MapRow(f, row[1..])
  }

  /**
   * The vectorised call `f(Z)`: a grid of the same shape whose entries are
   * `f` of the corresponding entries, each computed on its own.
   */
  function Apply<T>(f: Complex -> T, Z: Grid<Complex>): (r: Grid<T>)
    ensures |r| == |Z|
    ensures forall i :: 0 <= i < |Z| ==> |r[i]| == |Z[i]|
    ensures forall i, j :: 0 <= i < |Z| && 0 <= j < |Z[i]| ==> r[i][j] == f(Z[i][j])
  {
    if Z == [] then [] else [MapRow(f, Z[0])] + Apply(f, Z[1..])
  }

  /**
   * The grid `refresh` stores: sample both axes, lay them out with
   * `meshgrid`, form `X + Y*1j`, and apply `f` to the whole grid.
   */
  function Render<T>(xmin: real, xmax: real, xlen: nat, ymin: real, ymax: real, ylen: nat,
                     f: Complex -> T): Grid<T>
  {
    var x := Linspace(xmin, xmax, xlen);
    var y := Linspace(ymin, ymax, ylen);
    var XY := Meshgrid(x, y);
    Apply(f, ComplexGrid(XY.0, XY.1, ylen, xlen))
  }

  /**
   * The rendered grid has `ylen` rows of `xlen` entries, and the entry in row
   * `i`, column `j` is `f(x_j + y_i*1j)` for the inclusive linspace samples.
   */
  lemma RenderAt<T>(xmin: real, xmax: real, xlen: nat, ymin: real, ymax: real, ylen: nat,
                    f: Complex -> T)
    ensures var p := Render(xmin, xmax, xlen, ymin, ymax, ylen, f);
      HasShape(p, ylen, xlen)
      && forall i, j :: 0 <= i < ylen && 0 <= j < xlen ==>
           p[i][j] == f(Complex(Linspace(xmin, xmax, xlen)[j], Linspace(ymin, ymax, ylen)[i]))
  {
  }

  /**
   * Corners of the rendered grid: row `0`, column `0` is `f(xmin + ymin*1j)`,
   * and with at least two samples on both axes the last entry of the last
   * row is `f(xmax + ymax*1j)`. A single-sample x axis puts `xmin` in every column.
   */
  lemma RenderCorners<T>(xmin: real, xmax: real, xlen: nat, ymin: real, ymax: real, ylen: nat,
                         f: Complex -> T)
    requires xlen >= 1 && ylen >= 1
    ensures var p := Render(xmin, xmax, xlen, ymin, ymax, ylen, f);
      |p| == ylen && |p[0]| == xlen && |p[ylen - 1]| == xlen
      && p[0][0] == f(Complex(xmin, ymin))
      && (xlen >= 2 && ylen >= 2 ==> p[ylen - 1][xlen - 1] == f(Complex(xmax, ymax)))
      && (xlen == 1 ==> forall i :: 0 <= i < ylen ==> p[i] == [f(Complex(xmin, Linspace(ymin, ymax, ylen)[i]))])
  {
    RenderAt(xmin, xmax, xlen, ymin, ymax, ylen, f);
  }

  /**
   * A plane whose transformation is the escape-time classifier holds, at
   * every entry, the classification of that sample point; it is never
   * negative, and below `max` when `max >= 2`.
   */
  lemma JuliaPlane(xmin: real, xmax: real, xlen: nat, ymin: real, ymax: real, ylen: nat,
                   c: Complex, max: int)
    ensures var p := Render(xmin, xmax, xlen, ymin, ymax, ylen, EscapeTime.Julia(c, max));
      HasShape(p, ylen, xlen)
      && forall i, j :: 0 <= i < ylen && 0 <= j < xlen ==>
           p[i][j] == EscapeTime.EscapeCount(Complex(Linspace(xmin, xmax, xlen)[j], Linspace(ymin, ymax, ylen)[i]), c, max)
           && 0 <= p[i][j] && (max >= 2 ==> p[i][j] < max)
  {
    RenderAt(xmin, xmax, xlen, ymin, ymax, ylen, EscapeTime.Julia(c, max));
  }

  /**
   * `ComplexPlaneNP`: the geometry of both axes, the transformation `f`, and
   * the stored grid `plane`. The element type `T` of the grid is the result
   * type of `f`.
   */
  class ComplexPlane<T> {
    var xmin: real
    var xmax: real
    var xlen: nat
    var ymin: real
    var ymax: real
    var ylen: nat
    var plane: Grid<T>
    var f: Complex -> T

    /** `plane` is the grid of `f` over the current geometry. */
    ghost predicate Refreshed()
      reads this
    {
      plane == Render(xmin, xmax, xlen, ymin, ymax, ylen, f)
    }

    /** `__init__`: stores its arguments; `plane` is whatever was passed, not refreshed. */
    constructor(xmin: real, xmax: real, xlen: nat, ymin: real, ymax: real, ylen: nat,
                plane: Grid<T>, f: Complex -> T)
      ensures this.xmin == xmin && this.xmax == xmax && this.xlen == xlen
      ensures this.ymin == ymin && this.ymax == ymax && this.ylen == ylen
      ensures this.plane == plane && this.f == f
    {
      this.xmin, this.xmax, this.xlen := xmin, xmax, xlen;
      this.ymin, this.ymax, this.ylen := ymin, ymax, ylen;
      this.plane, this.f := plane, f;
    }

    /**
     * `refresh`: rebuilds `plane` as the `ylen` by `xlen` grid of
     * `f(x_j + y_i*1j)`; the geometry and `f` are unchanged. Returns `0`.
     */
    method Refresh() returns (r: int)
      modifies this
      ensures r == 0 && Refreshed()
      ensures HasShape(plane, ylen, xlen)
      ensures forall i, j :: 0 <= i < ylen && 0 <= j < xlen ==>
                plane[i][j] == f(Complex(Linspace(xmin, xmax, xlen)[j], Linspace(ymin, ymax, ylen)[i]))
      ensures xmin == old(xmin) && xmax == old(xmax) && xlen == old(xlen)
      ensures ymin == old(ymin) && ymax == old(ymax) && ylen == old(ylen)
      ensures f == old(f)
    {
      var x := Linspace(xmin, xmax, xlen);
      var y := Linspace(ymin, ymax, ylen);
      var XY := Meshgrid(x, y);
      var Z := ComplexGrid(XY.0, XY.1, ylen, xlen);
      plane := Apply(f, Z);
      RenderAt(xmin, xmax, xlen, ymin, ymax, ylen, f);
      return 0;
    }

    /**
     * `zoom`: replaces all six geometry fields by its arguments and refreshes;
     * `f` is unchanged. Returns `0`.
     */
    method Zoom(xmin: real, xmax: real, xlen: nat, ymin: real, ymax: real, ylen: nat) returns (r: int)
      modifies this
      ensures r == 0 && Refreshed()
      ensures this.xmin == xmin && this.xmax == xmax && this.xlen == xlen
      ensures this.ymin == ymin && this.ymax == ymax && this.ylen == ylen
      ensures f == old(f)
      ensures plane == Render(xmin, xmax, xlen, ymin, ymax, ylen, old(f))
    {
      this.xmin, this.xmax, this.xlen := xmin, xmax, xlen;
      this.ymin, this.ymax, this.ylen := ymin, ymax, ylen;
      var _ := Refresh();
      return 0;
    }

    /**
     * `set_f`: replaces the transformation and refreshes; the geometry is
     * unchanged. Returns `0`.
     */
    method SetF(f: Complex -> T) returns (r: int)
      modifies this
      ensures r == 0 && Refreshed()
      ensures this.f == f
      ensures xmin == old(xmin) && xmax == old(xmax) && xlen == old(xlen)
      ensures ymin == old(ymin) && ymax == old(ymax) && ylen == old(ylen)
      ensures plane == Render(old(xmin), old(xmax), old(xlen), old(ymin), old(ymax), old(ylen), f)
    {
      this.f := f;
      var _ := Refresh();
      return 0;
    }
  }

  /** The identity, the transformation `lambda x: x` a plane of complex numbers starts with by default. */
  function Identity(z: Complex): Complex
  {
    z
  }

  /**
   * With the default transformation the rendered grid holds the sample points
   * themselves: entry `[i][j]` is `x_j + y_i*1j`, so a one-sample x axis puts
   * `xmin` in every column and a one-sample y axis puts `ymin` in every row.
   */
  lemma IdentityPlane(xmin: real, xmax: real, xlen: nat, ymin: real, ymax: real, ylen: nat)
    ensures var p := Render(xmin, xmax, xlen, ymin, ymax, ylen, Identity);
      HasShape(p, ylen, xlen)
      && (forall i, j :: 0 <= i < ylen && 0 <= j < xlen ==>
            p[i][j] == Complex(Linspace(xmin, xmax, xlen)[j], Linspace(ymin, ymax, ylen)[i]))
      && (xlen == 1 ==> forall i :: 0 <= i < ylen ==> p[i][0].re == xmin)
      && (ylen == 1 ==> forall j :: 0 <= j < xlen ==> p[0][j].im == ymin)
  {
    RenderAt(xmin, xmax, xlen, ymin, ymax, ylen, Identity);
  }

  /**
   * A plane of complex numbers built with the identity and refreshed holds
   * the sample points themselves; a second plane, of integers, built with the
   * escape-time classifier and zoomed holds a count in `[0, max - 1]` at
   * every entry.
   */
  method PlaneClient(c: Complex)
  {
    var p := new ComplexPlane<Complex>(-2.0, 2.0, 5, -1.0, 1.0, 3, [], Identity);
    assert p.plane == [];
    var status := p.Refresh();
    assert p.plane[0][0] == Complex(-2.0, -1.0);
    assert p.plane[2][4] == Complex(2.0, 1.0);
    SetFTwice(p, Identity);

    var q := new ComplexPlane<int>(-2.0, 2.0, 5, -1.0, 1.0, 3, [], EscapeTime.Julia(c));
    status := q.Zoom(-1.0, 1.0, 4, -1.0, 1.0, 4);
    JuliaPlane(-1.0, 1.0, 4, -1.0, 1.0, 4, c, 100);
    assert forall i, j :: 0 <= i < 4 && 0 <= j < 4 ==> 0 <= q.plane[i][j] < 100;
  }

  /**
   * Setting the same transformation twice leaves the plane as setting it once
   * does: `f` is `g`, the geometry is kept, and `plane` is the grid of `g`.
   */
  method SetFTwice<T>(p: ComplexPlane<T>, g: Complex -> T)
    modifies p
    ensures p.f == g && p.Refreshed()
    ensures p.xmin == old(p.xmin) && p.xmax == old(p.xmax) && p.xlen == old(p.xlen)
    ensures p.ymin == old(p.ymin) && p.ymax == old(p.ymax) && p.ylen == old(p.ylen)
    ensures p.plane == Render(old(p.xmin), old(p.xmax), old(p.xlen), old(p.ymin), old(p.ymax), old(p.ylen), g)
  {
    var status := p.SetF(g);
    var once := p.plane;
    status := p.SetF(g);
    assert p.plane == once;
  }
}
