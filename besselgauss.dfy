/**
  The Bessel-Gauss beam (`pyfso/oam/bessel_gauss.py`): the complex field of
  the beam on the mesh, in one of two kinds (`"Jv"` with the Bessel function
  of the first kind, `"Iv"` with the modified one), and its intensity.
  The Bessel functions and the exponentials are those of the `Library`.
*/
module BesselBeams {
  import opened Wrappers
  import opened Numerics
  import opened Grids
  import opened Core

  /** A 2-D array of complex numbers, as a sequence of rows. */
  type CMatrix = seq<seq<Complex>>

  /** The message of the `ValueError` that `create` raises for any other
      kind. */
  const UnknownKind: string := "The Bessel-Gauss kind attribute introduced is unkown or unsupported."

  /** Reading `E` before `create` has assigned it. */
  const NoField: string := "E"

  /** The Gaussian envelope `exp(-rho**2 / w**2)` (both kinds compute it,
      once as `-rho*rho / w**2` and once as `-(rho**2) / w**2`). */
  function Gaussian(lib: Library, w: real, rho: real): real
    requires w != 0.0
  {
    lib.exp(-(rho * rho) / (w * w))
  }

  /** One cell of the `"Jv"` field:
      `jv(m, kt*rho) * (exp(1j*m*phi) * exp(-rho**2 / w**2))`. */
  function JvCell(lib: Library, m: real, kt: real, w: real, rho: real, phi: real): Complex
    requires w != 0.0
  {
    Scale(lib.jv(m, kt * rho), Scale(Gaussian(lib, w, rho), Expi(lib, m * phi)))
  }

  /** The scalar factor of the `"Iv"` field:
      `(sqrt(pi) / w0) * exp(1j*z/zR) * exp(1j*(3*pi/2)*m) * exp(1j*k*z)`. */
  function IvCoefficient(lib: Library, w0: real, z: real, zR: real, m: real, k: real): Complex
    requires w0 != 0.0 && zR != 0.0
  {
    Mul(Mul(Scale(lib.sqrt(Pi) / w0, Expi(lib, z / zR)), Expi(lib, (3.0 * Pi / 2.0) * m)), Expi(lib, k * z))
  }

  /** The Bessel factor of the `"Iv"` field:
      `iv((m-1)/2, a) - iv((m+1)/2, a)` with `a = rho**2 / (2 w**2)`. */
  function IvBessel(lib: Library, m: real, w: real, rho: real): real
    requires w != 0.0
  {
    var a := (rho * rho) / (2.0 * (w * w));
    lib.iv((m - 1.0) / 2.0, a) - lib.iv((m + 1.0) / 2.0, a)
  }

  /** One cell of the `"Iv"` field:
      `coff * (bessel * (rho * (exp(1j*m*phi) * exp(-rho**2 / w**2))))`. */
  function IvCell(lib: Library, coff: Complex, m: real, w: real, rho: real, phi: real): Complex
    requires w != 0.0
  {
    Mul(coff, Scale(IvBessel(lib, m, w, rho), Scale(rho, Scale(Gaussian(lib, w, rho), Expi(lib, m * phi)))))
  }

  /** `rho` and `phi` have one rectangular shape. */
  predicate SameShape(rho: Matrix, phi: Matrix)
  {
    IsRect(rho) && IsShape(phi, |rho|, Cols(rho))
  }

  /** The `"Jv"` field, element by element over `rho` and `phi`. */
  function JvField(lib: Library, m: real, kt: real, w: real, rho: Matrix, phi: Matrix): (E: CMatrix)
    requires w != 0.0 && SameShape(rho, phi)
    ensures IsShape(E, |rho|, Cols(rho))
    ensures forall i, j :: 0 <= i < |rho| && 0 <= j < Cols(rho) ==> E[i][j] == JvCell(lib, m, kt, w, rho[i][j], phi[i][j])
  {
    seq(|rho|, i requires 0 <= i < |rho| =>
      seq(Cols(rho), j requires 0 <= j < Cols(rho) => JvCell(lib, m, kt, w, rho[i][j], phi[i][j])))
  }

  /** The `"Iv"` field, element by element over `rho` and `phi`. */
  function IvField(lib: Library, coff: Complex, m: real, w: real, rho: Matrix, phi: Matrix): (E: CMatrix)
    requires w != 0.0 && SameShape(rho, phi)
    ensures IsShape(E, |rho|, Cols(rho))
    ensures forall i, j :: 0 <= i < |rho| && 0 <= j < Cols(rho) ==> E[i][j] == IvCell(lib, coff, m, w, rho[i][j], phi[i][j])
  {
    seq(|rho|, i requires 0 <= i < |rho| =>
      seq(Cols(rho), j requires 0 <= j < Cols(rho) => IvCell(lib, coff, m, w, rho[i][j], phi[i][j])))
  }

  /** `E * conj(E)`, element by element: an array of the same shape whose
      entries are real (imaginary part 0) and equal to the squared modulus
      of the field, hence non-negative. */
  function Intensity(E: CMatrix): (I: CMatrix)
    ensures |I| == |E| && forall i :: 0 <= i < |E| ==> |I[i]| == |E[i]|
    ensures forall i, j :: 0 <= i < |E| && 0 <= j < |E[i]| ==>
      I[i][j] == Complex(Norm2(E[i][j]), 0.0) && I[i][j].re >= 0.0
  {
    seq(|E|, i requires 0 <= i < |E| => seq(|E[i]|, j requires 0 <= j < |E[i]| => Mul(E[i][j], Conj(E[i][j]))))
  }

  /** The radial intensity profile of the `"Jv"` beam,
      `(jv(m, kt*rho) * exp(-rho**2/w**2)) ** 2`. */
  function JvProfile(lib: Library, m: real, kt: real, w: real, rho: real): real
    requires w != 0.0
  {
    var J, G := lib.jv(m, kt * rho), Gaussian(lib, w, rho);
    (J * J) * (G * G)
  }

  /** The radial intensity profile of the `"Iv"` beam,
      `|coff|**2 * (bessel * rho * exp(-rho**2/w**2)) ** 2`. */
  function IvProfile(lib: Library, coff: Complex, m: real, w: real, rho: real): real
    requires w != 0.0
  {
    var B, G := IvBessel(lib, m, w, rho), Gaussian(lib, w, rho);
    Norm2(coff) * ((B * B) * ((rho * rho) * (G * G)))
  }

  /** The `"Jv"` intensity at a cell is the radial profile at its `rho`: it
      does not depend on `phi`. */
  lemma JvCellNorm(lib: Library, m: real, kt: real, w: real, rho: real, phi: real)
    requires UnitCircle(lib) && w != 0.0
    ensures Norm2(JvCell(lib, m, kt, w, rho, phi)) == JvProfile(lib, m, kt, w, rho)
  {
    var J, G, e := lib.jv(m, kt * rho), Gaussian(lib, w, rho), Expi(lib, m * phi);
    Norm2OfExpi(lib, m * phi);
    Norm2OfScale(G, e);
    Norm2OfScale(J, Scale(G, e));
  }

  /** `(sqrt(pi) / w0) ** 2 == pi / w0 ** 2`. */
  lemma CoefficientScaleSquare(lib: Library, w0: real)
    requires SqrtLaws(lib) && w0 != 0.0
    ensures (lib.sqrt(Pi) / w0) * (lib.sqrt(Pi) / w0) == Pi / (w0 * w0)
  {
    var s := lib.sqrt(Pi);
    assert s * s == Pi;
    var c := s / w0;
    assert c * w0 == s;
    assert (c * c) * (w0 * w0) == s * s;
    ProductPositive(Abs(w0), Abs(w0));
    SquareOfAbs(w0);
  }

  /** A real times three unit phase factors has the square of that real as
      its squared modulus. */
  lemma PhaseProductNorm(c: real, e1: Complex, e2: Complex, e3: Complex)
    requires Norm2(e1) == 1.0 && Norm2(e2) == 1.0 && Norm2(e3) == 1.0
    ensures Norm2(Mul(Mul(Scale(c, e1), e2), e3)) == c * c
  {
    var a1 := Scale(c, e1);
    var a2 := Mul(a1, e2);
    Norm2OfScale(c, e1);
    Norm2OfMul(a1, e2);
    Norm2OfMul(a2, e3);
  }

  /** The squared modulus of the `"Iv"` coefficient is `pi / w0**2`: the
      three phase factors have modulus 1. */
  lemma IvCoefficientNorm(lib: Library, w0: real, z: real, zR: real, m: real, k: real)
    requires SqrtLaws(lib) && UnitCircle(lib)
    requires w0 != 0.0 && zR != 0.0
    ensures Norm2(IvCoefficient(lib, w0, z, zR, m, k)) == Pi / (w0 * w0)
  {
    assert IvCoefficient(lib, w0, z, zR, m, k)
      == Mul(Mul(Scale(lib.sqrt(Pi) / w0, Expi(lib, z / zR)), Expi(lib, (3.0 * Pi / 2.0) * m)), Expi(lib, k * z));
    Norm2OfExpi(lib, z / zR);
    Norm2OfExpi(lib, (3.0 * Pi / 2.0) * m);
    Norm2OfExpi(lib, k * z);
    PhaseProductNorm(lib.sqrt(Pi) / w0, Expi(lib, z / zR), Expi(lib, (3.0 * Pi / 2.0) * m), Expi(lib, k * z));
    CoefficientScaleSquare(lib, w0);
  }

  /** The `"Iv"` intensity at a cell is the radial profile at its `rho`:
      it does not depend on `phi`. */
  lemma IvCellNorm(lib: Library, coff: Complex, m: real, w: real, rho: real, phi: real)
    requires UnitCircle(lib) && w != 0.0
    ensures Norm2(IvCell(lib, coff, m, w, rho, phi)) == IvProfile(lib, coff, m, w, rho)
  {
    var B, G, e := IvBessel(lib, m, w, rho), Gaussian(lib, w, rho), Expi(lib, m * phi);
    var a1 := Scale(G, e);
    var a2 := Scale(rho, a1);
    var a3 := Scale(B, a2);
    assert IvCell(lib, coff, m, w, rho, phi) == Mul(coff, a3);
    Norm2OfExpi(lib, m * phi);
    Norm2OfScale(G, e);
    Norm2OfScale(rho, a1);
    Norm2OfScale(B, a2);
    Norm2OfMul(coff, a3);
    assert Norm2(a1) == G * G;
    MulCongruence(rho * rho, Norm2(a1), G * G);
    MulCongruence(B * B, Norm2(a2), (rho * rho) * (G * G));
    MulCongruence(Norm2(coff), Norm2(a3), (B * B) * ((rho * rho) * (G * G)));
  }

  /** The `"Iv"` field carries a factor `rho`, so it vanishes wherever
      `rho` is 0. */
  lemma IvFieldZeroWhereRhoZero(lib: Library, coff: Complex, m: real, w: real, rho: Matrix, phi: Matrix)
    requires w != 0.0 && SameShape(rho, phi)
    ensures var E := IvField(lib, coff, m, w, rho, phi);
      forall i, j :: 0 <= i < |rho| && 0 <= j < Cols(rho) && rho[i][j] == 0.0 ==> E[i][j] == Zero
  {
    forall i, j | 0 <= i < |rho| && 0 <= j < Cols(rho) && rho[i][j] == 0.0
      ensures IvCell(lib, coff, m, w, rho[i][j], phi[i][j]) == Zero
    {
      var B, G, e := IvBessel(lib, m, w, 0.0), Gaussian(lib, w, 0.0), Expi(lib, m * phi[i][j]);
      assert Scale(0.0, Scale(G, e)) == Zero;
      assert Scale(B, Zero) == Zero;
      assert Mul(coff, Zero) == Zero;
    }
  }

  /** On a grid with an even number of intervals the centre point is the
      origin, so the `"Iv"` field is 0 there. */
  lemma IvFieldZeroAtCentre(lib: Library, n: int, d: real, coff: Complex, m: real, w: real)
    requires SqrtLaws(lib) && w != 0.0
    requires n >= 0 && n % 2 == 0
    ensures var g := BuildGrid(lib, n, d);
      SameShape(g.rho, g.phi) && IvField(lib, coff, m, w, g.rho, g.phi)[n / 2][n / 2] == Zero
  {
    var g := BuildGrid(lib, n, d);
    RhoZeroAtCentre(lib, n, d);
    IvFieldZeroWhereRhoZero(lib, coff, m, w, g.rho, g.phi);
  }

  /** Cells of equal `rho` have equal `"Jv"` intensity. */
  lemma JvIntensityEqualWhereRhoEqual(lib: Library, m: real, kt: real, w: real, rho: Matrix, phi: Matrix,
                                      i1: nat, j1: nat, i2: nat, j2: nat)
    requires UnitCircle(lib) && w != 0.0 && SameShape(rho, phi)
    requires i1 < |rho| && j1 < Cols(rho) && i2 < |rho| && j2 < Cols(rho)
    requires rho[i1][j1] == rho[i2][j2]
    ensures var I := Intensity(JvField(lib, m, kt, w, rho, phi));
      I[i1][j1] == I[i2][j2]
  {
    var E := JvField(lib, m, kt, w, rho, phi);
    assert E[i1][j1] == JvCell(lib, m, kt, w, rho[i1][j1], phi[i1][j1]);
    assert E[i2][j2] == JvCell(lib, m, kt, w, rho[i2][j2], phi[i2][j2]);
    JvCellNorm(lib, m, kt, w, rho[i1][j1], phi[i1][j1]);
    JvCellNorm(lib, m, kt, w, rho[i2][j2], phi[i2][j2]);
    assert Norm2(E[i1][j1]) == Norm2(E[i2][j2]);
  }

  /** Cells of equal `rho` have equal `"Iv"` intensity. */
  lemma IvIntensityEqualWhereRhoEqual(lib: Library, coff: Complex, m: real, w: real, rho: Matrix, phi: Matrix,
                                      i1: nat, j1: nat, i2: nat, j2: nat)
    requires UnitCircle(lib) && w != 0.0 && SameShape(rho, phi)
    requires i1 < |rho| && j1 < Cols(rho) && i2 < |rho| && j2 < Cols(rho)
    requires rho[i1][j1] == rho[i2][j2]
    ensures var I := Intensity(IvField(lib, coff, m, w, rho, phi));
      I[i1][j1] == I[i2][j2]
  {
    var E := IvField(lib, coff, m, w, rho, phi);
    assert E[i1][j1] == IvCell(lib, coff, m, w, rho[i1][j1], phi[i1][j1]);
    assert E[i2][j2] == IvCell(lib, coff, m, w, rho[i2][j2], phi[i2][j2]);
    IvCellNorm(lib, coff, m, w, rho[i1][j1], phi[i1][j1]);
    IvCellNorm(lib, coff, m, w, rho[i2][j2], phi[i2][j2]);
    assert Norm2(E[i1][j1]) == Norm2(E[i2][j2]);
  }

  /** On the built grid the `"Jv"` intensity is symmetric under point
      reflection through the centre, since it depends only on `rho`. */
  lemma JvIntensityPointSymmetry(lib: Library, n: int, d: real, m: real, kt: real, w: real, i: nat, j: nat)
    requires UnitCircle(lib) && w != 0.0
    requires i < AxisLength(n) && j < AxisLength(n)
    ensures var g := BuildGrid(lib, n, d);
      SameShape(g.rho, g.phi) &&
      var I := Intensity(JvField(lib, m, kt, w, g.rho, g.phi));
      I[n - i][n - j] == I[i][j]
  {
    var g := BuildGrid(lib, n, d);
    GridPointSymmetry(lib, n, d, i, j);
    JvIntensityEqualWhereRhoEqual(lib, m, kt, w, g.rho, g.phi, n - i, n - j, i, j);
  }

  /** The same for the `"Iv"` intensity. */
  lemma IvIntensityPointSymmetry(lib: Library, n: int, d: real, coff: Complex, m: real, w: real, i: nat, j: nat)
    requires UnitCircle(lib) && w != 0.0
    requires i < AxisLength(n) && j < AxisLength(n)
    ensures var g := BuildGrid(lib, n, d);
      SameShape(g.rho, g.phi) &&
      var I := Intensity(IvField(lib, coff, m, w, g.rho, g.phi));
      I[n - i][n - j] == I[i][j]
  {
    var g := BuildGrid(lib, n, d);
    GridPointSymmetry(lib, n, d, i, j);
    IvIntensityEqualWhereRhoEqual(lib, coff, m, w, g.rho, g.phi, n - i, n - j, i, j);
  }

  /** A Bessel-Gauss beam: the `BaseBeam` part of the object, the kind tag,
      and the field `E` once `create` has assigned it. */
  class BesselGauss {
    const beam: BaseBeam
    var kind: string
    var E: Option<CMatrix>

    /** `BesselGauss(n_samples, ..., z_coor, kind)`: see `Init` for which
        values are in force. */
    constructor (lib: Library, n: int := DefaultSamples, gridLength: real := DefaultGridLength,
                 waveLength: real := DefaultWaveLength, angularMomentum: real := DefaultAngularMomentum,
                 beamWaist: real := DefaultBeamWaist, zCoor: real := DefaultZ, kind: string := "Jv")
      ensures fresh(beam) && fresh(beam.mesh) && beam.mesh.lib == lib && E == None
      ensures this.kind == kind
      ensures beam.mesh.nSamples == DefaultSamples && beam.mesh.gridLength == DefaultGridLength
      ensures beam.mesh.gridSpacing == DefaultGridLength / DefaultSamples as real
      ensures beam.mesh.Mesh() == BuildGrid(lib, DefaultSamples, DefaultGridLength / DefaultSamples as real)
      ensures beam.waveLength == DefaultWaveLength && beam.angularMomentum == DefaultAngularMomentum
      ensures beam.beamWaist == DefaultBeamWaist && beam.zCoor == DefaultZ
      ensures beam.Params() == Optics(lib, DefaultWaveLength, DefaultBeamWaist, DefaultZ)
    {
      beam := new BaseBeam.Blank(lib);
      E := None;
      new;
      Init(n, gridLength, waveLength, angularMomentum, beamWaist, zCoor, kind);
    }

    /** The body of `BesselGauss.__init__`: it writes all seven arguments,
        then `super().__init__()` runs the beam's `__init__` with no
        arguments, which writes the defaults over every numeric parameter.
        Only `kind` keeps the caller's value.  Nothing is divided here, so
        every argument is accepted. */
    method Init(n: int := DefaultSamples, gridLength: real := DefaultGridLength,
                waveLength: real := DefaultWaveLength, angularMomentum: real := DefaultAngularMomentum,
                beamWaist: real := DefaultBeamWaist, zCoor: real := DefaultZ, kind: string := "Jv")
      modifies this, beam, beam.mesh
      ensures E == old(E) && this.kind == kind
      ensures beam.mesh.nSamples == DefaultSamples && beam.mesh.gridLength == DefaultGridLength
      ensures beam.mesh.gridSpacing == DefaultGridLength / DefaultSamples as real
      ensures beam.mesh.Mesh() == BuildGrid(beam.mesh.lib, DefaultSamples, DefaultGridLength / DefaultSamples as real)
      ensures beam.waveLength == DefaultWaveLength && beam.angularMomentum == DefaultAngularMomentum
      ensures beam.beamWaist == DefaultBeamWaist && beam.zCoor == DefaultZ
      ensures beam.Params() == Optics(beam.mesh.lib, DefaultWaveLength, DefaultBeamWaist, DefaultZ)
    {
      beam.mesh.nSamples := n;
      beam.mesh.gridLength := gridLength;
      beam.waveLength := waveLength;
      beam.angularMomentum := angularMomentum;
      beam.beamWaist := beamWaist;
      beam.zCoor := zCoor;
      this.kind := kind;
      beam.Init();
    }

    /** `create`: for `"Jv"` and `"Iv"` assigns the field of that kind,
        computed from the beam's current parameters and mesh; for any other
        kind fails with the `ValueError` message and leaves `E` as it was.
        The element-wise formulas need `rho` and `phi` of one shape and the
        divisors of the chosen kind to be non-zero. */
    method Create() returns (o: Outcome<string>)
      requires kind == "Jv" || kind == "Iv" ==> SameShape(beam.mesh.rho, beam.mesh.phi) && beam.beamWidth != 0.0
      requires kind == "Iv" ==> beam.beamWaist != 0.0 && beam.rayleighRange != 0.0
      modifies this
      ensures kind == old(kind)
      ensures kind == "Jv" ==> (o == Pass &&
        E == Some(JvField(beam.mesh.lib, beam.angularMomentum, beam.kt, beam.beamWidth, beam.mesh.rho, beam.mesh.phi)))
      ensures kind == "Iv" ==> (o == Pass &&
        E == Some(IvField(beam.mesh.lib,
                          IvCoefficient(beam.mesh.lib, beam.beamWaist, beam.zCoor, beam.rayleighRange,
                                        beam.angularMomentum, beam.waveNumber),
                          beam.angularMomentum, beam.beamWidth, beam.mesh.rho, beam.mesh.phi)))
      ensures kind != "Jv" && kind != "Iv" ==> o == Fail(UnknownKind) && E == old(E)
    {
      var lib := beam.mesh.lib;
      if kind == "Jv" {
        E := Some(JvField(lib, beam.angularMomentum, beam.kt, beam.beamWidth, beam.mesh.rho, beam.mesh.phi));
        o := Pass;
      } else if kind == "Iv" {
        var coff := IvCoefficient(lib, beam.beamWaist, beam.zCoor, beam.rayleighRange,
                                  beam.angularMomentum, beam.waveNumber);
        E := Some(IvField(lib, coff, beam.angularMomentum, beam.beamWidth, beam.mesh.rho, beam.mesh.phi));
        o := Pass;
      } else {
        o := Fail(UnknownKind);
      }
    }

    /** `compute_intensity`: the intensity of the current field, which
        exists only once `create` has succeeded; `E` is only read. */
    function ComputeIntensity(): (r: Result<CMatrix, string>)
      reads this
      ensures r.Success? <==> E.Some?
      ensures E.None? ==> r == Failure(NoField)
      ensures r.Success? ==> (|r.value| == |E.value| &&
        (forall i :: 0 <= i < |E.value| ==> |r.value[i]| == |E.value[i]|) &&
        forall i, j :: 0 <= i < |E.value| && 0 <= j < |E.value[i]| ==>
          j < |r.value[i]| && r.value[i][j] == Complex(Norm2(E.value[i][j]), 0.0))
    {
      match E
      case None => Failure(NoField)
      case Some(field) => Success(Intensity(field))
    }
  }
}
