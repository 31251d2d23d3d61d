/**
  The thin film (`pyfso/films/thin_film.py`): a mesh with a radius, an
  angle and a transmittance, and the transmission mask that is fully open
  (1.0) on a sector of a disc and lets through `transmittance` elsewhere.
*/
module ThinFilms {
  import opened Numerics
  import opened Grids
  import opened Core

  /** The test of `create` for one cell: the point is in the upper half
      plane, inside the disc of radius `r`, and its angle lies between
      `angle` and a quarter turn. */
  predicate Open(x: real, y: real, p: real, r: real, angle: real)
  {
    y >= 0.0 && x * x + y * y <= r * r && p <= Pi / 2.0 && angle <= p
  }

  /** The value `create` writes into one cell. */
  function MaskCell(x: real, y: real, p: real, r: real, angle: real, transmittance: real): real
  {
    if Open(x, y, p, r, angle) then 1.0 else transmittance
  }

  /** The three arrays `create` reads all have the same square shape. */
  predicate Square(xx: Matrix, yy: Matrix, phi: Matrix)
  {
    IsShape(xx, |xx|, |xx|) && IsShape(yy, |xx|, |xx|) && IsShape(phi, |xx|, |xx|)
  }

  /** The mask `create` returns for the given arrays and film parameters. */
  function MaskOf(xx: Matrix, yy: Matrix, phi: Matrix, r: real, angle: real, transmittance: real): (m: Matrix)
    requires Square(xx, yy, phi)
    ensures IsShape(m, |xx|, |xx|)
  {
    var N := |xx|;
    seq(N, i requires 0 <= i < N =>
      seq(N, j requires 0 <= j < N => MaskCell(xx[i][j], yy[i][j], phi[i][j], r, angle, transmittance)))
  }

  /** A cell is open (1.0) where the test holds and is `transmittance`
      where it fails; when `transmittance` is not 1.0 the cell is 1.0
      exactly where the test holds. */
  lemma MaskCells(xx: Matrix, yy: Matrix, phi: Matrix, r: real, angle: real, t: real, i: nat, j: nat)
    requires Square(xx, yy, phi) && i < |xx| && j < |xx|
    ensures var m := MaskOf(xx, yy, phi, r, angle, t);
      && (Open(xx[i][j], yy[i][j], phi[i][j], r, angle) ==> m[i][j] == 1.0)
      && (!Open(xx[i][j], yy[i][j], phi[i][j], r, angle) ==> m[i][j] == t)
      && (t != 1.0 ==> (m[i][j] == 1.0 <==> Open(xx[i][j], yy[i][j], phi[i][j], r, angle)))
  {
  }

  /** Every value of the mask is 1.0 or the transmittance, so with a
      transmittance in `[0, 1]` every value lies in `[0, 1]`. */
  lemma MaskValues(xx: Matrix, yy: Matrix, phi: Matrix, r: real, angle: real, t: real)
    requires Square(xx, yy, phi)
    ensures var m := MaskOf(xx, yy, phi, r, angle, t);
      && (forall i, j :: 0 <= i < |m| && 0 <= j < |m| ==> m[i][j] == 1.0 || m[i][j] == t)
      && (0.0 <= t <= 1.0 ==> forall i, j :: 0 <= i < |m| && 0 <= j < |m| ==> 0.0 <= m[i][j] <= 1.0)
  {
  }

  /** The mask whose every entry is `t`. */
  function Constant(N: nat, t: real): (m: Matrix)
    ensures IsShape(m, N, N)
  {
    seq(N, i => seq(N, j => t))
  }

  /** An angle beyond a quarter turn leaves no cell open: the mask is the
      transmittance everywhere. */
  lemma MaskClosedBeyondQuarterTurn(xx: Matrix, yy: Matrix, phi: Matrix, r: real, angle: real, t: real)
    requires Square(xx, yy, phi) && angle > Pi / 2.0
    ensures MaskOf(xx, yy, phi, r, angle, t) == Constant(|xx|, t)
  {
    var m, c := MaskOf(xx, yy, phi, r, angle, t), Constant(|xx|, t);
    forall i | 0 <= i < |xx|
      ensures m[i] == c[i]
    {
      forall j | 0 <= j < |xx|
        ensures m[i][j] == c[i][j]
      {
        assert !Open(xx[i][j], yy[i][j], phi[i][j], r, angle);
      }
    }
  }

  /** A fully transmitting film gives the all-ones mask. */
  lemma MaskFullyTransmitting(xx: Matrix, yy: Matrix, phi: Matrix, r: real, angle: real)
    requires Square(xx, yy, phi)
    ensures MaskOf(xx, yy, phi, r, angle, 1.0) == Constant(|xx|, 1.0)
  {
    var m, c := MaskOf(xx, yy, phi, r, angle, 1.0), Constant(|xx|, 1.0);
    forall i | 0 <= i < |xx|
      ensures m[i] == c[i]
    {
      assert |m[i]| == |c[i]|;
    }
  }

  /** Only `r ** 2` enters the test, so `r` and `-r` give the same mask. */
  lemma MaskRadiusSign(xx: Matrix, yy: Matrix, phi: Matrix, r: real, angle: real, t: real)
    requires Square(xx, yy, phi)
    ensures MaskOf(xx, yy, phi, -r, angle, t) == MaskOf(xx, yy, phi, r, angle, t)
  {
    var m1, m2 := MaskOf(xx, yy, phi, -r, angle, t), MaskOf(xx, yy, phi, r, angle, t);
    assert (-r) * (-r) == r * r;
    forall i | 0 <= i < |xx|
      ensures m1[i] == m2[i]
    {
      assert |m1[i]| == |m2[i]|;
    }
  }

  /** A film of larger radius `|r2| >= |r1|` is open wherever the smaller
      one is; so shrinking the radius can only turn open cells into
      `transmittance`. */
  lemma MaskRadiusMonotone(xx: Matrix, yy: Matrix, phi: Matrix, r1: real, r2: real, angle: real, t: real)
    requires Square(xx, yy, phi) && Abs(r1) <= Abs(r2)
    ensures var m1, m2 := MaskOf(xx, yy, phi, r1, angle, t), MaskOf(xx, yy, phi, r2, angle, t);
      forall i, j :: 0 <= i < |xx| && 0 <= j < |xx| ==>
        && (Open(xx[i][j], yy[i][j], phi[i][j], r1, angle) ==> Open(xx[i][j], yy[i][j], phi[i][j], r2, angle))
        && (m1[i][j] == m2[i][j] || m1[i][j] == t)
  {
    SquareOrder(Abs(r1), Abs(r2));
    SquareOfAbs(r1);
    SquareOfAbs(r2);
    assert r1 * r1 <= r2 * r2;
  }

  /** A thin film: the `BaseMesh` part of the object, the film parameters,
      and the mask once `create` has run (`null` before). */
  class ThinFilm {
    const mesh: BaseMesh
    var r: real
    var angle: real
    var transmittance: real
    var cMask: array2?<real>

    /** `ThinFilm(n_samples, grid_length, r, angle, transmittance)`: see
        `Init` for which values are in force. */
    constructor (lib: Library, n: int := DefaultSamples, gridLength: real := DefaultGridLength,
                 r: real := 20.0, angle: real := Pi / 2.0, transmittance: real := 0.0)
      requires n != 0
      ensures fresh(mesh) && mesh.lib == lib && cMask == null
      ensures mesh.nSamples == DefaultSamples && mesh.gridLength == DefaultGridLength
      ensures mesh.gridSpacing == DefaultGridLength / DefaultSamples as real
      ensures mesh.Mesh() == BuildGrid(lib, DefaultSamples, DefaultGridLength / DefaultSamples as real)
      ensures Square(mesh.xx, mesh.yy, mesh.phi)
      ensures this.r == r && this.angle == angle && this.transmittance == transmittance
    {
      mesh := new BaseMesh.Blank(lib);
      cMask := null;
      new;
      Init(n, gridLength, r, angle, transmittance);
    }

    /** The body of `ThinFilm.__init__`: it writes all five arguments and
        the spacing (dividing by the caller's `n_samples`), then
        `super().__init__()` runs the mesh's `__init__` with no arguments,
        which writes the defaults 1023 and 5e-3 over the caller's size and
        length and builds the grid from them.  The film parameters keep the
        caller's values. */
    method Init(n: int := DefaultSamples, gridLength: real := DefaultGridLength,
                r: real := 20.0, angle: real := Pi / 2.0, transmittance: real := 0.0)
      requires n != 0
      modifies this, mesh
      ensures cMask == old(cMask)
      ensures mesh.nSamples == DefaultSamples && mesh.gridLength == DefaultGridLength
      ensures mesh.gridSpacing == DefaultGridLength / DefaultSamples as real
      ensures mesh.Mesh() == BuildGrid(mesh.lib, DefaultSamples, DefaultGridLength / DefaultSamples as real)
      ensures Square(mesh.xx, mesh.yy, mesh.phi)
      ensures this.r == r && this.angle == angle && this.transmittance == transmittance
    {
      mesh.nSamples := n;
      mesh.gridLength := gridLength;
      this.r := r;
      this.angle := angle;
      this.transmittance := transmittance;
      mesh.gridSpacing := mesh.gridLength / mesh.nSamples as real;
      mesh.Init();
    }

    /** `create`: allocates an array of ones of the mesh's shape, overwrites
        every cell with its mask value, stores the array in `c_mask` and
        returns it.  The mesh and the film parameters are only read. */
    method Create() returns (mask: array2<real>)
      requires Square(mesh.xx, mesh.yy, mesh.phi)
      modifies this
      ensures fresh(mask) && cMask == mask
      ensures r == old(r) && angle == old(angle) && transmittance == old(transmittance)
      ensures Contents(mask) == MaskOf(mesh.xx, mesh.yy, mesh.phi, r, angle, transmittance)
    {
      var N := |mesh.xx|;
      mask := new real[N, |mesh.yy|]((i, j) => 1.0);
      cMask := mask;
      for i := 0 to N
        modifies mask
        invariant forall a, b :: 0 <= a < i && 0 <= b < N ==>
          mask[a, b] == MaskCell(mesh.xx[a][b], mesh.yy[a][b], mesh.phi[a][b], r, angle, transmittance)
      {
        for j := 0 to N
          modifies mask
          invariant forall a, b :: 0 <= a < i && 0 <= b < N ==>
            mask[a, b] == MaskCell(mesh.xx[a][b], mesh.yy[a][b], mesh.phi[a][b], r, angle, transmittance)
          invariant forall b :: 0 <= b < j ==>
            mask[i, b] == MaskCell(mesh.xx[i][b], mesh.yy[i][b], mesh.phi[i][b], r, angle, transmittance)
        {
          if mesh.yy[i][j] >= 0.0
            && mesh.xx[i][j] * mesh.xx[i][j] + mesh.yy[i][j] * mesh.yy[i][j] <= r * r
            && mesh.phi[i][j] <= Pi / 2.0
            && angle <= mesh.phi[i][j]
          {
            mask[i, j] := 1.0;
          } else {
            mask[i, j] := transmittance;
          }
        }
      }
      assert Contents(mask) == MaskOf(mesh.xx, mesh.yy, mesh.phi, r, angle, transmittance) by {
        var c, m := Contents(mask), MaskOf(mesh.xx, mesh.yy, mesh.phi, r, angle, transmittance);
        forall a | 0 <= a < N
          ensures c[a] == m[a]
        {
          assert |c[a]| == |m[a]| == N;
        }
      }
    }
  }
}
