/**
  The stand-alone film base class (`pyfso/films/base.py`).  It does not
  derive from the mesh class: it keeps its own copy of the grid code, which
  builds the same grid (`Grids.BuildGrid`).
*/
module FilmBase {
  import opened Numerics
  import opened Grids

  class BaseFilm {
    const lib: Library
    var nSamples: int
    var gridLength: real
    var r: real
    var angle: real
    var transmittance: real
    var gridSpacing: real
    var x: seq<real>
    var y: seq<real>
    var xx: Matrix
    var yy: Matrix
    var rho: Matrix
    var phi: Matrix

    function Mesh(): Grid
      reads this
    {
      Grid(x, y, xx, yy, rho, phi)
    }

    /** `BaseFilm(n_samples, grid_length, r, angle, transmittance)`: every
        argument is kept, the spacing is `grid_length / n_samples` (so
        `n_samples` must not be 0), and the grid is built from them. */
    constructor (lib: Library, n: int := 1023, gridLength: real := 5.0e-3, r: real := 20.0,
                 angle: real := -Pi / 2.0, transmittance: real := 0.0)
      requires n != 0
      ensures this.lib == lib
      ensures nSamples == n && this.gridLength == gridLength
      ensures this.r == r && this.angle == angle && this.transmittance == transmittance
      ensures gridSpacing == gridLength / n as real
      ensures Mesh() == BuildGrid(lib, n, gridLength / n as real)
    {
      this.lib := lib;
      nSamples := n;
      this.gridLength := gridLength;
      this.r := r;
      this.angle := angle;
      this.transmittance := transmittance;
      gridSpacing := gridLength / n as real;
      new;
      CreateGrid();
    }

    /** `create_grid`: assigns the six grid arrays, overwriting `phi` with its
        quarter turn; every other field is only read. */
    method CreateGrid()
      modifies this
      ensures nSamples == old(nSamples) && gridLength == old(gridLength)
      ensures r == old(r) && angle == old(angle) && transmittance == old(transmittance)
      ensures gridSpacing == old(gridSpacing)
      ensures Mesh() == BuildGrid(lib, nSamples, gridSpacing)
    {
      x := XAxis(nSamples, gridSpacing);
      y := YAxis(nSamples, gridSpacing);
      xx, yy := MeshX(x, y), MeshY(x, y);
      var polar := Cart2PolGrid(lib, xx, yy);
      phi, rho := polar.0, polar.1;
      phi := Rot90(phi);
    }
  }
}
