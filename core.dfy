/**
  The mesh and the beam of the optics code (`pyfso/core.py`).

  Python's inheritance is modelled by composition: a `BaseBeam` object owns
  the `BaseMesh` part of itself in `mesh`.  Each `__init__` body is an `Init`
  method, so that a subclass can run it again on an object whose fields are
  already written, exactly as `BaseMesh.__init__(self)` and
  `super().__init__()` do in pyfso; the `Blank` constructors stand for
  an object before any `__init__` body has run.
*/
module Core {
  import opened Numerics
  import opened Grids

  const DefaultSamples: int := 1023
  const DefaultGridLength: real := 5.0e-3
  const DefaultWaveLength: real := 532.0e-9
  const DefaultAngularMomentum: real := 5.0
  const DefaultBeamWaist: real := 0.57e-3 / 2.0
  const DefaultZ: real := 0.0

  /** A sample mesh: its size, its spacing and the grid arrays built from
      them. */
  class BaseMesh {
    const lib: Library
    var nSamples: int
    var gridLength: real
    var gridSpacing: real
    var x: seq<real>
    var y: seq<real>
    var xx: Matrix
    var yy: Matrix
    var rho: Matrix
    var phi: Matrix

    /** The six grid arrays, as one value. */
    function Mesh(): Grid
      reads this
    {
      Grid(x, y, xx, yy, rho, phi)
    }

    /** The mesh once an `__init__` body has run: the grid is the one its
        own size and spacing give. */
    ghost predicate Built()
      reads this
    {
      Mesh() == BuildGrid(lib, nSamples, gridSpacing)
    }

    /** An object none of whose `__init__` bodies has run yet; its fields
        hold no particular value. */
    constructor Blank(lib: Library)
      ensures this.lib == lib
    {
      this.lib := lib;
    }

    /** `BaseMesh(n_samples, grid_length)`. */
    constructor (lib: Library, n: int := DefaultSamples, gridLength: real := DefaultGridLength)
      requires n != 0
      ensures this.lib == lib
      ensures nSamples == n && this.gridLength == gridLength
      ensures gridSpacing == gridLength / n as real
      ensures Mesh() == BuildGrid(lib, n, gridLength / n as real)
    {
      this.lib := lib;
      new;
      Init(n, gridLength);
    }

    /** The body of `BaseMesh.__init__`: record the size, derive the spacing
        (a division by `n_samples`, so `n_samples` must not be 0) and build
        the grid.  Called with no arguments it writes the defaults 1023 and
        5e-3 over whatever the fields held. */
    method Init(n: int := DefaultSamples, gridLength: real := DefaultGridLength)
      requires n != 0
      modifies this
      ensures nSamples == n && this.gridLength == gridLength
      ensures gridSpacing == gridLength / n as real
      ensures Mesh() == BuildGrid(lib, n, gridLength / n as real)
    {
      nSamples := n;
      this.gridLength := gridLength;
      gridSpacing := this.gridLength / nSamples as real;
      CreateGrid();
    }

    /** `create_grid`: the two axes, their meshgrid, `cart2pol` of the mesh,
        and `phi` overwritten by its quarter turn.  Size and spacing are
        only read. */
    method CreateGrid()
      modifies this
      ensures nSamples == old(nSamples) && gridLength == old(gridLength)
      ensures gridSpacing == old(gridSpacing)
      ensures Built()
    {
      x := XAxis(nSamples, gridSpacing);
      y := YAxis(nSamples, gridSpacing);
      xx, yy := MeshX(x, y), MeshY(x, y);
      var polar := Cart2PolGrid(lib, xx, yy);
      phi, rho := polar.0, polar.1;
      phi := Rot90(phi);
    }
  }

  /** The four quantities `compute_optical_params` derives. */
  datatype OpticalParams = OpticalParams(waveNumber: real, rayleighRange: real, beamWidth: real, kt: real)

  /** `(z / z_R) ** 2`, the term under the square root of the beam width. */
  function Spread(z: real, rayleighRange: real): (s: real)
    requires rayleighRange != 0.0
    ensures s >= 0.0
  {
    (z / rayleighRange) * (z / rayleighRange)
  }

  /** What `compute_optical_params` computes from the wave length, the
      beam waist and the axial coordinate.  Both divisors of
      `compute_optical_params` must be non-zero: `wave_length` directly, and `beam_waist` through the
      Rayleigh range. */
  function Optics(lib: Library, waveLength: real, beamWaist: real, z: real): (p: OpticalParams)
    requires waveLength != 0.0 && beamWaist != 0.0
    ensures p.waveNumber * waveLength == 2.0 * Pi
    ensures p.kt * 500.0 == p.waveNumber
    ensures p.rayleighRange * waveLength == Pi * (beamWaist * beamWaist)
    ensures p.rayleighRange != 0.0
  {
    var waveNumber := 2.0 * Pi / waveLength;
    var rayleighRange := (Pi * (beamWaist * beamWaist)) / waveLength;
    RayleighRangeNonZero(waveLength, beamWaist);
    var beamWidth := Width(lib, beamWaist, z, rayleighRange);
    OpticalParams(waveNumber, rayleighRange, beamWidth, waveNumber / 500.0)
  }

  lemma RayleighRangeNonZero(waveLength: real, beamWaist: real)
    requires waveLength != 0.0 && beamWaist != 0.0
    ensures (Pi * (beamWaist * beamWaist)) / waveLength != 0.0
  {
    var b2 := beamWaist * beamWaist;
    var m := Abs(beamWaist);
    SquareOrder(m, 0.0);
    assert b2 == m * m by {
      assert (-beamWaist) * (-beamWaist) == b2;
    }
    ProductPositive(Pi, b2);
    var a := Pi * b2;
    assert (a / waveLength) * waveLength == a;
  }

  /** `beam_waist * sqrt(1 + (z / z_R) ** 2)`. */
  function Width(lib: Library, beamWaist: real, z: real, rayleighRange: real): real
    requires rayleighRange != 0.0
  {
    beamWaist * lib.sqrt(1.0 + Spread(z, rayleighRange))
  }

  /** The spread grows with `|z|`. */
  lemma SpreadMonotone(z1: real, z2: real, r: real)
    requires r != 0.0 && Abs(z1) <= Abs(z2)
    ensures Spread(z1, r) <= Spread(z2, r)
  {
    var a, b := Abs(z1) / Abs(r), Abs(z2) / Abs(r);
    DivideMonotone(0.0, Abs(z1), Abs(r));
    DivideMonotone(Abs(z1), Abs(z2), Abs(r));
    SquareOrder(a, b);
    AbsQuotient(z1, r);
    AbsQuotient(z2, r);
  }

  lemma WidthGrows(lib: Library, beamWaist: real, z1: real, z2: real, r: real)
    requires SqrtLaws(lib)
    requires beamWaist > 0.0 && r != 0.0 && Abs(z1) <= Abs(z2)
    ensures beamWaist <= Width(lib, beamWaist, z1, r) <= Width(lib, beamWaist, z2, r)
  {
    SpreadMonotone(z1, z2, r);
    var u1, u2 := 1.0 + Spread(z1, r), 1.0 + Spread(z2, r);
    SqrtOfOne(lib);
    SqrtMonotone(lib, 1.0, u1);
    SqrtMonotone(lib, u1, u2);
    var s1, s2 := lib.sqrt(u1), lib.sqrt(u2);
    ScaleMonotone(beamWaist, 1.0, s1);
    ScaleMonotone(beamWaist, s1, s2);
  }

  /** At the waist (`z = 0`) the beam width is the beam waist. */
  lemma BeamWidthAtWaist(lib: Library, waveLength: real, beamWaist: real)
    requires SqrtLaws(lib)
    requires waveLength != 0.0 && beamWaist != 0.0
    ensures Optics(lib, waveLength, beamWaist, 0.0).beamWidth == beamWaist
  {
    var p := Optics(lib, waveLength, beamWaist, 0.0);
    assert Spread(0.0, p.rayleighRange) == 0.0;
    SqrtOfOne(lib);
  }

  /** The beam width only depends on `z ** 2`: it is the same at `z` and
      `-z`. */
  lemma BeamWidthEven(lib: Library, waveLength: real, beamWaist: real, z: real)
    requires waveLength != 0.0 && beamWaist != 0.0
    ensures Optics(lib, waveLength, beamWaist, -z).beamWidth == Optics(lib, waveLength, beamWaist, z).beamWidth
  {
    var r := Optics(lib, waveLength, beamWaist, z).rayleighRange;
    assert Optics(lib, waveLength, beamWaist, -z).rayleighRange == r;
    assert -z / r == -(z / r);
    assert Spread(-z, r) == Spread(z, r);
  }

  /** One Rayleigh range from the waist the width is `sqrt(2)` times the
      waist. */
  lemma BeamWidthAtRayleighRange(lib: Library, waveLength: real, beamWaist: real)
    requires waveLength != 0.0 && beamWaist != 0.0
    ensures var zR := Optics(lib, waveLength, beamWaist, 0.0).rayleighRange;
      Optics(lib, waveLength, beamWaist, zR).beamWidth == beamWaist * lib.sqrt(2.0)
  {
    var zR := Optics(lib, waveLength, beamWaist, 0.0).rayleighRange;
    assert Optics(lib, waveLength, beamWaist, zR).rayleighRange == zR;
    assert zR / zR == 1.0;
    assert Spread(zR, zR) == 1.0;
  }

  /** For a positive waist the beam width is at least the waist and grows
      with the distance `|z|` from the waist. */
  lemma BeamWidthGrows(lib: Library, waveLength: real, beamWaist: real, z1: real, z2: real)
    requires SqrtLaws(lib)
    requires waveLength != 0.0 && beamWaist > 0.0
    requires Abs(z1) <= Abs(z2)
    ensures beamWaist <= Optics(lib, waveLength, beamWaist, z1).beamWidth
    ensures Optics(lib, waveLength, beamWaist, z1).beamWidth <= Optics(lib, waveLength, beamWaist, z2).beamWidth
  {
    var r := Optics(lib, waveLength, beamWaist, z1).rayleighRange;
    assert Optics(lib, waveLength, beamWaist, z2).rayleighRange == r;
    WidthGrows(lib, beamWaist, z1, z2, r);
  }

  /** A Gaussian beam on a mesh: the entered beam parameters and the four
      derived ones. */
  class BaseBeam {
    /** The `BaseMesh` part of the same Python object. */
    const mesh: BaseMesh
    var waveLength: real
    var angularMomentum: real
    var beamWaist: real
    var zCoor: real
    var waveNumber: real
    var rayleighRange: real
    var beamWidth: real
    var kt: real

    function Params(): OpticalParams
      reads this
    {
      OpticalParams(waveNumber, rayleighRange, beamWidth, kt)
    }

    /** A beam none of whose `__init__` bodies has run yet. */
    constructor Blank(lib: Library)
      ensures fresh(mesh) && mesh.lib == lib
    {
      mesh := new BaseMesh.Blank(lib);
    }

    /** `BaseBeam(n_samples, grid_length, wave_length, angular_momentum,
        beam_waist, z_coor)`: see `Init` for which values are in force. */
    constructor (lib: Library, n: int := DefaultSamples, gridLength: real := DefaultGridLength,
                 waveLength: real := DefaultWaveLength, angularMomentum: real := DefaultAngularMomentum,
                 beamWaist: real := DefaultBeamWaist, zCoor: real := DefaultZ)
      requires n != 0 && waveLength != 0.0 && beamWaist != 0.0
      ensures fresh(mesh) && mesh.lib == lib
      ensures mesh.nSamples == DefaultSamples && mesh.gridLength == DefaultGridLength
      ensures mesh.gridSpacing == DefaultGridLength / DefaultSamples as real
      ensures mesh.Mesh() == BuildGrid(lib, DefaultSamples, DefaultGridLength / DefaultSamples as real)
      ensures this.waveLength == waveLength && this.angularMomentum == angularMomentum
      ensures this.beamWaist == beamWaist && this.zCoor == zCoor
      ensures Params() == Optics(lib, waveLength, beamWaist, zCoor)
    {
      mesh := new BaseMesh.Blank(lib);
      new;
      Init(n, gridLength, waveLength, angularMomentum, beamWaist, zCoor);
    }

    /** The body of `BaseBeam.__init__`.  It writes all six arguments and
        the spacing (dividing by the caller's `n_samples`), then runs
        `BaseMesh.__init__(self)` with no arguments, which writes the
        defaults 1023 and 5e-3 over the caller's size and length and builds
        the grid from them; the grid is built once more, and the optical
        parameters are derived from the caller's beam values, which nothing
        overwrote. */
    method Init(n: int := DefaultSamples, gridLength: real := DefaultGridLength,
                waveLength: real := DefaultWaveLength, angularMomentum: real := DefaultAngularMomentum,
                beamWaist: real := DefaultBeamWaist, zCoor: real := DefaultZ)
      requires n != 0 && waveLength != 0.0 && beamWaist != 0.0
      modifies this, mesh
      ensures mesh.nSamples == DefaultSamples && mesh.gridLength == DefaultGridLength
      ensures mesh.gridSpacing == DefaultGridLength / DefaultSamples as real
      ensures mesh.Mesh() == BuildGrid(mesh.lib, DefaultSamples, DefaultGridLength / DefaultSamples as real)
      ensures this.waveLength == waveLength && this.angularMomentum == angularMomentum
      ensures this.beamWaist == beamWaist && this.zCoor == zCoor
      ensures Params() == Optics(mesh.lib, waveLength, beamWaist, zCoor)
    {
      mesh.nSamples := n;
      mesh.gridLength := gridLength;
      this.waveLength := waveLength;
      this.angularMomentum := angularMomentum;
      this.beamWaist := beamWaist;
      this.zCoor := zCoor;
      mesh.gridSpacing := mesh.gridLength / mesh.nSamples as real;
      mesh.Init();
      mesh.CreateGrid();
      ComputeOpticalParams();
    }

    /** `compute_optical_params`: sets the four derived fields and nothing
        else. */
    method ComputeOpticalParams()
      requires waveLength != 0.0 && beamWaist != 0.0
      modifies this
      ensures waveLength == old(waveLength) && angularMomentum == old(angularMomentum)
      ensures beamWaist == old(beamWaist) && zCoor == old(zCoor)
      ensures Params() == Optics(mesh.lib, waveLength, beamWaist, zCoor)
    {
      waveNumber := 2.0 * Pi / waveLength;
      rayleighRange := (Pi * (beamWaist * beamWaist)) / waveLength;
      RayleighRangeNonZero(waveLength, beamWaist);
      beamWidth := Width(mesh.lib, beamWaist, zCoor, rayleighRange);
      kt := waveNumber / 500.0;
    }
  }
}
