/**
  The sample grid of the optics code as pure index functions: the two
  coordinate axes, their meshgrid, the polar form of the mesh, and numpy's
  quarter-turn rotation of a 2-D array.  `Core.BaseMesh.CreateGrid` and
  `FilmBase.BaseFilm.CreateGrid` assign the fields of their objects from
  `BuildGrid`.
*/
module Grids {
  import opened Numerics

  /** A 2-D array of reals, as a sequence of rows. */
  type Matrix = seq<seq<real>>

  /** `A` has `rows` rows of `cols` entries each. */
  predicate IsShape<T>(A: seq<seq<T>>, rows: nat, cols: nat)
  {
    |A| == rows && forall i :: 0 <= i < rows ==> |A[i]| == cols
  }

  /** The number of columns of a rectangular array (0 when there are no rows,
      which is numpy's shape (0, 0) for the grids built here). */
  function Cols<T>(A: seq<seq<T>>): nat
  {
    if |A| == 0 then 0 else |A[0]|
  }

  predicate IsRect<T>(A: seq<seq<T>>)
  {
    IsShape(A, |A|, Cols(A))
  }

  /** The contents of a 2-D array object, row by row. */
  ghost function Contents(a: array2<real>): (m: Matrix)
    reads a
    ensures IsShape(m, a.Length0, a.Length1)
  {
    seq(a.Length0, i requires 0 <= i < a.Length0 reads a =>
      seq(a.Length1, j requires 0 <= j < a.Length1 reads a => a[i, j]))
  }

  /** Length of `np.arange(-n/2, n/2 + 1, 1)` and of
      `np.arange(n/2, -n/2 - 1, -1)`: `n + 1` points, none when `n < 0`. */
  function AxisLength(n: int): nat
  {
    if n >= 0 then n + 1 else 0
  }

  /** `np.arange(-n/2, n/2 + 1, 1) * d`: the horizontal axis. */
  function XAxis(n: int, d: real): (x: seq<real>)
    ensures |x| == AxisLength(n)
  {
    seq(AxisLength(n), k => (k as real - n as real / 2.0) * d)
  }

  /** `np.arange(n/2, -n/2 - 1, -1) * d`: the vertical axis, descending. */
  function YAxis(n: int, d: real): (y: seq<real>)
    ensures |y| == AxisLength(n)
  {
    seq(AxisLength(n), k => (n as real / 2.0 - k as real) * d)
  }

  /** First array of `np.meshgrid(x, y)`: every row is a copy of `x`. */
  function MeshX(x: seq<real>, y: seq<real>): (xx: Matrix)
    ensures IsShape(xx, |y|, |x|)
    ensures forall i, j :: 0 <= i < |y| && 0 <= j < |x| ==> xx[i][j] == x[j]
  {
    seq(|y|, i => x)
  }

  /** Second array of `np.meshgrid(x, y)`: row `i` is constantly `y[i]`. */
  function MeshY(x: seq<real>, y: seq<real>): (yy: Matrix)
    ensures IsShape(yy, |y|, |x|)
    ensures forall i, j :: 0 <= i < |y| && 0 <= j < |x| ==> yy[i][j] == y[i]
  {
    seq(|y|, i requires 0 <= i < |y| => seq(|x|, j => y[i]))
  }

  /** The radius `cart2pol` returns for one point: `sqrt(x**2 + y**2)`. */
  function PolarRadius(lib: Library, x: real, y: real): real
  {
    lib.sqrt(x * x + y * y)
  }

  /** The angle `cart2pol` returns for one point: `arctan2(y, x)`. */
  function PolarAngle(lib: Library, x: real, y: real): real
  {
    lib.arctan2(y, x)
  }

  /** The radius depends on the point only through `x**2 + y**2`, so it is
      the same at `(x, y)` and at the reflected point `(-x, -y)`. */
  lemma PolarRadiusReflection(lib: Library, x: real, y: real)
    ensures PolarRadius(lib, -x, -y) == PolarRadius(lib, x, y)
  {
    assert (-x) * (-x) + (-y) * (-y) == x * x + y * y;
  }

  lemma PolarRadiusNonNegative(lib: Library, x: real, y: real)
    requires SqrtLaws(lib)
    ensures PolarRadius(lib, x, y) >= 0.0
  {
    assert x * x + y * y >= 0.0;
  }

  /** `cart2pol(xx, yy)` element-wise over two arrays of one shape: the pair
      `(phi, rho)`. */
  function Cart2PolGrid(lib: Library, xx: Matrix, yy: Matrix): (p: (Matrix, Matrix))
    requires IsRect(xx) && IsShape(yy, |xx|, Cols(xx))
    ensures IsShape(p.0, |xx|, Cols(xx)) && IsShape(p.1, |xx|, Cols(xx))
    ensures forall i, j :: 0 <= i < |xx| && 0 <= j < Cols(xx) ==>
      p.0[i][j] == PolarAngle(lib, xx[i][j], yy[i][j]) && p.1[i][j] == PolarRadius(lib, xx[i][j], yy[i][j])
  {
    var rows, cols := |xx|, Cols(xx);
    (seq(rows, i requires 0 <= i < rows =>
       seq(cols, j requires 0 <= j < cols => PolarAngle(lib, xx[i][j], yy[i][j]))),
     seq(rows, i requires 0 <= i < rows =>
       seq(cols, j requires 0 <= j < cols => PolarRadius(lib, xx[i][j], yy[i][j]))))
  }

  /** `np.rot90(A)`: one counter-clockwise quarter turn of the array, so an
      `R x C` array becomes `C x R` and `Rot90(A)[i][j] == A[j][C - 1 - i]`. */
  function Rot90<T>(A: seq<seq<T>>): (B: seq<seq<T>>)
    requires IsRect(A)
    ensures IsShape(B, Cols(A), |A|)
    ensures forall i, j :: 0 <= i < Cols(A) && 0 <= j < |A| ==> B[i][j] == A[j][Cols(A) - 1 - i]
  {
    var rows, cols := |A|, Cols(A);
    seq(cols, i requires 0 <= i < cols =>
      seq(rows, j requires 0 <= j < rows => A[j][cols - 1 - i]))
  }

  /** The fields `create_grid` assigns. */
  datatype Grid = Grid(x: seq<real>, y: seq<real>, xx: Matrix, yy: Matrix, rho: Matrix, phi: Matrix)

  /** What `create_grid` computes from `n_samples` and `grid_spacing`: the
      axes, their meshgrid, `rho` and `phi` from `cart2pol`, and `phi`
      replaced by its quarter-turn rotation. */
  function BuildGrid(lib: Library, n: int, d: real): (g: Grid)
    ensures |g.x| == |g.y| == AxisLength(n)
    ensures var N := AxisLength(n);
      IsShape(g.xx, N, N) && IsShape(g.yy, N, N) && IsShape(g.rho, N, N) && IsShape(g.phi, N, N)
  {
    GridFromAxes(lib, XAxis(n, d), YAxis(n, d))
  }

  /** The part of `create_grid` after the two axes are built. */
  function GridFromAxes(lib: Library, x: seq<real>, y: seq<real>): (g: Grid)
    requires |x| == |y|
    ensures g.x == x && g.y == y
    ensures IsShape(g.xx, |x|, |x|) && IsShape(g.yy, |x|, |x|)
    ensures IsShape(g.rho, |x|, |x|) && IsShape(g.phi, |x|, |x|)
  {
    var xx := MeshX(x, y);
    var yy := MeshY(x, y);
    var polar := Cart2PolGrid(lib, xx, yy);
    Grid(x, y, xx, yy, polar.1, Rot90(polar.0))
  }

  // ---------------------------------------------------------------------
  // Properties of the axes

  /** The two axes are mirror images: `y[k] == -x[k]`, `x` is antisymmetric
      about its middle, and consecutive points are `d` apart. */
  lemma AxisSymmetry(n: int, d: real)
    ensures var x, y := XAxis(n, d), YAxis(n, d);
      && (forall k :: 0 <= k < |x| ==> y[k] == -x[k] && x[k] == -x[n - k])
      && (forall k :: 0 <= k < |x| - 1 ==> x[k + 1] - x[k] == d)
  {
    var x, y := XAxis(n, d), YAxis(n, d);
    forall k | 0 <= k < |x|
      ensures y[k] == -x[k] && x[k] == -x[n - k]
    {
      AxisPoint(n, d, k);
    }
    forall k | 0 <= k < |x| - 1
      ensures x[k + 1] - x[k] == d
    {
      var a := k as real - n as real / 2.0;
      assert x[k + 1] == (a + 1.0) * d;
    }
  }

  /** One point of the axes: `y[k] == -x[k]` and `x[n - k] == -x[k]`. */
  lemma AxisPoint(n: int, d: real, k: nat)
    requires k < AxisLength(n)
    ensures var x, y := XAxis(n, d), YAxis(n, d);
      y[k] == -x[k] && x[n - k] == -x[k]
  {
    var x, y := XAxis(n, d), YAxis(n, d);
    var a := k as real - n as real / 2.0;
    assert x[k] == a * d;
    assert y[k] == (-a) * d;
    assert x[n - k] == (-a) * d;
  }

  /** With `d = grid_length / n_samples`, the horizontal axis runs from
      `-grid_length/2` to `grid_length/2` and the vertical one the other way. */
  lemma AxisEndpoints(n: int, gridLength: real)
    requires n > 0
    ensures var d := gridLength / n as real;
      var x, y := XAxis(n, d), YAxis(n, d);
      && x[0] == -gridLength / 2.0 && x[n] == gridLength / 2.0
      && y[0] == gridLength / 2.0 && y[n] == -gridLength / 2.0
  {
    var m := n as real;
    var d := gridLength / m;
    assert d * m == gridLength;
    var x, y := XAxis(n, d), YAxis(n, d);
    assert x[n] == (m / 2.0) * d;
    assert (m / 2.0) * d == (d * m) / 2.0;
    assert x[0] == (-(m / 2.0)) * d;
    assert y[0] == (m / 2.0) * d;
    assert y[n] == (-(m / 2.0)) * d;
  }

  /** The value 0 occurs on an axis with non-zero spacing exactly when
      `n_samples` is even (then at index `n/2`). */
  lemma ZeroOnAxis(n: int, d: real)
    requires n >= 0 && d != 0.0
    ensures (exists k :: 0 <= k < |XAxis(n, d)| && XAxis(n, d)[k] == 0.0) <==> n % 2 == 0
    ensures (exists k :: 0 <= k < |YAxis(n, d)| && YAxis(n, d)[k] == 0.0) <==> n % 2 == 0
  {
    var x, y := XAxis(n, d), YAxis(n, d);
    if n % 2 == 0 {
      var k := n / 2;
      assert k as real == n as real / 2.0;
      assert x[k] == 0.0 * d;
      assert y[k] == 0.0 * d;
    } else {
      forall k | 0 <= k < |x|
        ensures x[k] != 0.0 && y[k] != 0.0
      {
        var a := k as real - n as real / 2.0;
        assert 2.0 * a == (2 * k - n) as real;
        assert a != 0.0;
        assert x[k] == a * d;
        assert y[k] == (-a) * d;
      }
    }
  }

  // ---------------------------------------------------------------------
  // Properties of the built grid

  /** The cells of a grid built from two axes of equal length `N`: the
      meshgrid (`xx[i][j] == x[j]`, `yy[i][j] == y[i]`), `rho` in the
      meshgrid's own orientation, and `phi` read off the raw `arctan2` array
      a quarter turn away (`phi[i][j]` is the raw angle at `[j][N - 1 - i]`,
      whose point is `(x[N - 1 - i], y[j])`). */
  lemma GridFromAxesCells(lib: Library, x: seq<real>, y: seq<real>, i: nat, j: nat)
    requires |x| == |y| && i < |x| && j < |x|
    ensures var g := GridFromAxes(lib, x, y);
      && g.xx[i][j] == x[j] && g.yy[i][j] == y[i]
      && g.rho[i][j] == PolarRadius(lib, x[j], y[i])
      && g.phi[i][j] == PolarAngle(lib, x[|x| - 1 - i], y[j])
  {
    MeshCell(x, y, i, j);
    RadiusCell(lib, x, y, i, j);
    AngleCell(lib, x, y, i, j);
  }

  lemma MeshCell(x: seq<real>, y: seq<real>, i: nat, j: nat)
    requires |x| == |y| && i < |x| && j < |x|
    ensures MeshX(x, y)[i][j] == x[j] && MeshY(x, y)[i][j] == y[i]
  {
  }

  lemma RadiusCell(lib: Library, x: seq<real>, y: seq<real>, i: nat, j: nat)
    requires |x| == |y| && i < |x| && j < |x|
    ensures Cart2PolGrid(lib, MeshX(x, y), MeshY(x, y)).1[i][j] == PolarRadius(lib, x[j], y[i])
  {
    MeshCell(x, y, i, j);
  }

  lemma AngleCell(lib: Library, x: seq<real>, y: seq<real>, i: nat, j: nat)
    requires |x| == |y| && i < |x| && j < |x|
    ensures Rot90(Cart2PolGrid(lib, MeshX(x, y), MeshY(x, y)).0)[i][j] == PolarAngle(lib, x[|x| - 1 - i], y[j])
  {
    var N := |x|;
    var raw := Cart2PolGrid(lib, MeshX(x, y), MeshY(x, y)).0;
    assert Cols(raw) == N;
    assert Rot90(raw)[i][j] == raw[j][N - 1 - i];
    MeshCell(x, y, j, N - 1 - i);
  }

  /** The mesh of the built grid: `x` and `y` are the two axes, and
      `xx[i][j] == x[j]`, `yy[i][j] == y[i]`. */
  lemma GridMesh(lib: Library, n: int, d: real, i: nat, j: nat)
    requires i < AxisLength(n) && j < AxisLength(n)
    ensures var g := BuildGrid(lib, n, d);
      && g.x == XAxis(n, d) && g.y == YAxis(n, d)
      && g.xx[i][j] == g.x[j] && g.yy[i][j] == g.y[i]
  {
    var x, y := XAxis(n, d), YAxis(n, d);
    assert BuildGrid(lib, n, d) == GridFromAxes(lib, x, y);
    GridFromAxesCells(lib, x, y, i, j);
  }

  /** `rho` of a cell is the radius of its own point; `phi` of a cell is
      the angle of the point a quarter turn away. */
  lemma PolarFromAxes(lib: Library, x: seq<real>, y: seq<real>, i: nat, j: nat)
    requires |x| == |y| && i < |x| && j < |x|
    ensures var g, m := GridFromAxes(lib, x, y), |x| - 1;
      && g.rho[i][j] == PolarRadius(lib, g.xx[i][j], g.yy[i][j])
      && g.phi[i][j] == PolarAngle(lib, g.xx[j][m - i], g.yy[j][m - i])
  {
    GridFromAxesCells(lib, x, y, i, j);
    GridFromAxesCells(lib, x, y, j, |x| - 1 - i);
  }

  /** The polar arrays of the built grid: `rho` in meshgrid orientation, and
      `phi` a quarter turn away from the raw `arctan2` array, so that
      `phi[i][j]` is the raw angle at `[j][n - i]`. */
  lemma GridPolar(lib: Library, n: int, d: real, i: nat, j: nat)
    requires i < AxisLength(n) && j < AxisLength(n)
    ensures var g := BuildGrid(lib, n, d);
      && g.rho[i][j] == PolarRadius(lib, g.xx[i][j], g.yy[i][j])
      && g.phi[i][j] == PolarAngle(lib, g.xx[j][n - i], g.yy[j][n - i])
  {
    var x, y := XAxis(n, d), YAxis(n, d);
    assert |x| - 1 - i == n - i;
    PolarFromAxes(lib, x, y, i, j);
  }

  /** With axes related as the built ones are at the indices involved,
      the angle stored at a cell is `arctan2(-xx, yy)` of that cell. */
  lemma PhiFromAxes(lib: Library, x: seq<real>, y: seq<real>, i: nat, j: nat)
    requires |x| == |y| && i < |x| && j < |x|
    requires y[j] == -x[j] && x[|x| - 1 - i] == y[i]
    ensures var g := GridFromAxes(lib, x, y);
      g.phi[i][j] == lib.arctan2(-g.xx[i][j], g.yy[i][j])
  {
    GridFromAxesCells(lib, x, y, i, j);
  }

  /** Because only `phi` is rotated, the angle stored at a cell is not the
      angle of that cell's own `(xx, yy)`: it is `arctan2(-xx, yy)` there. */
  lemma PhiInCellCoordinates(lib: Library, n: int, d: real, i: nat, j: nat)
    requires i < AxisLength(n) && j < AxisLength(n)
    ensures var g := BuildGrid(lib, n, d);
      g.phi[i][j] == lib.arctan2(-g.xx[i][j], g.yy[i][j])
  {
    var x, y := XAxis(n, d), YAxis(n, d);
    AxisPoint(n, d, i);
    AxisPoint(n, d, j);
    assert |x| - 1 - i == n - i;
    PhiFromAxes(lib, x, y, i, j);
  }

  /** When the axes are antisymmetric at the indices involved, point
      reflection through the centre negates `xx` and `yy`. */
  lemma MeshReflectionFromAxes(lib: Library, x: seq<real>, y: seq<real>, i: nat, j: nat)
    requires |x| == |y| && i < |x| && j < |x|
    requires x[|x| - 1 - j] == -x[j] && y[|x| - 1 - i] == -y[i]
    ensures var g, m := GridFromAxes(lib, x, y), |x| - 1;
      g.xx[m - i][m - j] == -g.xx[i][j] && g.yy[m - i][m - j] == -g.yy[i][j]
  {
    var m := |x| - 1;
    GridFromAxesCells(lib, x, y, i, j);
    GridFromAxesCells(lib, x, y, m - i, m - j);
  }

  /** ... and leaves `rho` unchanged. */
  lemma RhoReflectionFromAxes(lib: Library, x: seq<real>, y: seq<real>, i: nat, j: nat)
    requires |x| == |y| && i < |x| && j < |x|
    requires x[|x| - 1 - j] == -x[j] && y[|x| - 1 - i] == -y[i]
    ensures var g, m := GridFromAxes(lib, x, y), |x| - 1;
      g.rho[m - i][m - j] == g.rho[i][j]
  {
    var m := |x| - 1;
    RhoFromAxes(lib, x, y, i, j);
    RhoFromAxes(lib, x, y, m - i, m - j);
    PolarRadiusReflection(lib, x[j], y[i]);
  }

  /** The radius part of `GridFromAxesCells` on its own. */
  lemma RhoFromAxes(lib: Library, x: seq<real>, y: seq<real>, i: nat, j: nat)
    requires |x| == |y| && i < |x| && j < |x|
    ensures GridFromAxes(lib, x, y).rho[i][j] == PolarRadius(lib, x[j], y[i])
  {
    GridFromAxesCells(lib, x, y, i, j);
  }

  /** The two axes of the built grid are antisymmetric at every index. */
  lemma AxesAntisymmetric(n: int, d: real, k: nat)
    requires k < AxisLength(n)
    ensures var x, y := XAxis(n, d), YAxis(n, d);
      x[n - k] == -x[k] && y[n - k] == -y[k]
  {
    var x, y := XAxis(n, d), YAxis(n, d);
    AxisPoint(n, d, k);
    AxisPoint(n, d, n - k);
  }

  /** Point reflection through the centre of the built grid negates `xx` and
      `yy` and leaves `rho` unchanged, since `rho` depends only on
      `xx**2 + yy**2`. */
  lemma GridPointSymmetry(lib: Library, n: int, d: real, i: nat, j: nat)
    requires i < AxisLength(n) && j < AxisLength(n)
    ensures var g := BuildGrid(lib, n, d);
      && g.xx[n - i][n - j] == -g.xx[i][j]
      && g.yy[n - i][n - j] == -g.yy[i][j]
      && g.rho[n - i][n - j] == g.rho[i][j]
  {
    var x, y := XAxis(n, d), YAxis(n, d);
    AxesAntisymmetric(n, d, i);
    AxesAntisymmetric(n, d, j);
    assert |x| - 1 - i == n - i && |x| - 1 - j == n - j;
    MeshReflectionFromAxes(lib, x, y, i, j);
    RhoReflectionFromAxes(lib, x, y, i, j);
  }

  /** `rho` is non-negative everywhere. */
  lemma RhoNonNegative(lib: Library, n: int, d: real)
    requires SqrtLaws(lib)
    ensures var g := BuildGrid(lib, n, d);
      forall i, j :: 0 <= i < |g.rho| && 0 <= j < |g.rho[i]| ==> g.rho[i][j] >= 0.0
  {
    var g := BuildGrid(lib, n, d);
    forall i, j | 0 <= i < |g.rho| && 0 <= j < |g.rho[i]|
      ensures g.rho[i][j] >= 0.0
    {
      GridMesh(lib, n, d, i, j);
      GridPolar(lib, n, d, i, j);
      PolarRadiusNonNegative(lib, g.xx[i][j], g.yy[i][j]);
    }
  }

  /** With an even `n_samples` the centre cell is the origin, where `rho`
      is 0. */
  lemma RhoZeroAtCentre(lib: Library, n: int, d: real)
    requires SqrtLaws(lib) && n >= 0 && n % 2 == 0
    ensures var g := BuildGrid(lib, n, d);
      g.rho[n / 2][n / 2] == 0.0
  {
    var g, c := BuildGrid(lib, n, d), n / 2;
    var x := XAxis(n, d);
    assert x[c] == 0.0 by {
      assert c as real == n as real / 2.0;
      assert x[c] == 0.0 * d;
    }
    GridMesh(lib, n, d, c, c);
    GridPolar(lib, n, d, c, c);
    AxesAntisymmetric(n, d, c);
    SqrtOfZero(lib);
    assert g.rho[c][c] == PolarRadius(lib, 0.0, 0.0);
  }

  // ---------------------------------------------------------------------
  // Properties of the quarter turn

  /** Two quarter turns are the point reflection `A[R-1-i][C-1-j]`. */
  lemma Rot180<T>(A: seq<seq<T>>)
    requires IsRect(A) && |A| > 0 && Cols(A) > 0
    ensures var B := Rot90(Rot90(A));
      IsShape(B, |A|, Cols(A)) &&
      forall i, j :: 0 <= i < |A| && 0 <= j < Cols(A) ==> B[i][j] == A[|A| - 1 - i][Cols(A) - 1 - j]
  {
    var R := Rot90(A);
    assert Cols(R) == |A|;
  }

  /** Four quarter turns give back the array. */
  lemma Rot90FourTimes<T>(A: seq<seq<T>>)
    requires IsRect(A) && (|A| == 0 || Cols(A) > 0)
    ensures Rot90(Rot90(Rot90(Rot90(A)))) == A
  {
    if |A| > 0 {
      var H := Rot90(Rot90(A));
      HalfTurnIsReflect(A);
      assert |H| > 0 && Cols(H) == Cols(A);
      HalfTurnIsReflect(H);
      ReflectTwice(A);
    }
  }

  /** Point reflection of an array through its centre. */
  function Reflect<T>(A: seq<seq<T>>): (B: seq<seq<T>>)
    requires IsRect(A)
    ensures IsShape(B, |A|, Cols(A))
  {
    var rows, cols := |A|, Cols(A);
    seq(rows, i requires 0 <= i < rows =>
      seq(cols, j requires 0 <= j < cols => A[rows - 1 - i][cols - 1 - j]))
  }

  lemma HalfTurnIsReflect<T>(A: seq<seq<T>>)
    requires IsRect(A) && |A| > 0 && Cols(A) > 0
    ensures Rot90(Rot90(A)) == Reflect(A)
  {
    var B, F := Rot90(Rot90(A)), Reflect(A);
    Rot180(A);
    forall i | 0 <= i < |A|
      ensures B[i] == F[i]
    {
      assert |B[i]| == |F[i]|;
    }
  }

  lemma ReflectTwice<T>(A: seq<seq<T>>)
    requires IsRect(A)
    ensures Reflect(Reflect(A)) == A
  {
    var F := Reflect(Reflect(A));
    forall i | 0 <= i < |A|
      ensures F[i] == A[i]
    {
      assert |F[i]| == |A[i]|;
    }
  }
}
