# pyfso core in Dafny

This project models the computational core of pyfso, a small free-space-optics package. It covers:

- the sampling mesh shared by beams and films, which is built from a pair of axes, their meshgrid, the polar coordinates of the mesh and a quarter turn of the angle array;
- the Gaussian beam parameters (wave number, Rayleigh range, beam width, transverse wave number);
- the chain of `__init__` calls that decides which parameter values the objects actually use;
- the thin-film transmission mask, which a nested loop fills in place;
- the Bessel-Gauss field of kind `"Jv"` or `"Iv"` and its intensity `E * conj(E)`;
- the composite-indicator pipeline, a left-to-right run of processors over a dataset.

Sample counts are Dafny `int`, and every other number is a Dafny `real`. Floating-point values are modelled as exact reals.

The transcendental and special functions (`sqrt`, `arctan2`, `exp`, `cos`, `sin`, `jv`, `iv`) are the fields of a `Numerics.Library` value that every operation takes as a parameter. Nothing is assumed about them. A lemma that needs a law states it in `requires`:

- `SqrtLaws`: `sqrt` is a non-negative square root on non-negative arguments.
- `UnitCircle`: `cos**2 + sin**2 == 1`.

`pi` is `3.141592653589793`, numpy's value of pi as printed (the shortest decimal that rounds to the double `np.pi`).

The code is imperative, and the model keeps that form. Each Python class whose fields change is a Dafny `class`. The array contents are specified by pure index functions in `Grids`, `ThinFilms` and `BesselBeams`, and the methods are proved to produce exactly them.

Inheritance is modelled by composition:

- A `BaseBeam` owns the `BaseMesh` part of itself in `mesh`.
- A `ThinFilm` owns a `mesh` in the same way.
- A `BesselGauss` owns its `beam`.

The `__init__` bodies of `BaseMesh` and `BaseBeam` are `Init` methods, because a subclass replays them on an object that is already partly written, as `BaseMesh.__init__(self)` and `super().__init__()` do. Nothing subclasses `ThinFilm` or `BesselGauss`. Their `__init__` bodies are `Init` methods too, only so that the constructor can call them after allocating the parent part. `BaseFilm` and `CompositeIndicator` are never replayed, so their `__init__` is the constructor body.

Because those calls pass no arguments, they overwrite the caller's values with the defaults, and the model proves this:

- A `BaseBeam` and a `ThinFilm` always end up with `n_samples = 1023` and `grid_length = 5e-3`, and the grid is built from those values.
- A `BesselGauss` keeps only the caller's `kind`; every numeric parameter ends at its default.

One consequence of the grid code is shown in `Grids.PhiInCellCoordinates`. Only `phi` is rotated. So the angle stored at a cell is `arctan2(-xx, yy)` of that cell, not `arctan2(yy, xx)`.

Files:

| file | module | contents |
|---|---|---|
| `wrappers.dfy` | `Wrappers` | `Option`, `Result` and `Outcome` |
| `numerics.dfy` | `Numerics` | complex numbers, the `Library`, its laws, and order facts about reals |
| `grids.dfy` | `Grids` | axes, meshgrid, `cart2pol`, `rot90`, and the grid lemmas |
| `core.dfy` | `Core` | `BaseMesh`, `Optics` with its lemmas, and `BaseBeam` |
| `filmbase.dfy` | `FilmBase` | `BaseFilm` |
| `thinfilm.dfy` | `ThinFilms` | the mask function with its lemmas, and `ThinFilm` |
| `besselgauss.dfy` | `BesselBeams` | the field formulas, intensity lemmas, and `BesselGauss` |
| `diffraction.dfy` | `Diffraction` | the processor pipeline and `CompositeIndicator` |

## Model

| member | source | states |
|---|---|---|
| Grids.XAxis | pyfso/core.py:29-32 | the horizontal axis `(k - n/2) * d` has `n_samples + 1` points (none for a negative size) |
| Grids.YAxis | pyfso/core.py:33-36 | the vertical axis `(n/2 - k) * d` has `n_samples + 1` points (none for a negative size) |
| Grids.AxisSymmetry | pyfso/core.py:29-36 | `y[k] == -x[k]`, `x[k] == -x[n - k]`, and consecutive points of `x` are `d` apart |
| Grids.AxisEndpoints | pyfso/core.py:29-36 | with `d = grid_length / n_samples`, `x` runs from `-grid_length/2` to `grid_length/2` and `y` the other way |
| Grids.ZeroOnAxis | pyfso/core.py:29-36 | with non-zero spacing, 0 is a point of either axis if and only if `n_samples` is even |
| Grids.MeshX | pyfso/core.py:37 | `xx` is `len(y) x len(x)` and `xx[i][j] == x[j]` |
| Grids.MeshY | pyfso/core.py:37 | `yy` is `len(y) x len(x)` and `yy[i][j] == y[i]` |
| Grids.Cart2PolGrid | pyfso/utils/coords.py:5-8 | element-wise over one shape, the pair is `(arctan2(yy, xx), sqrt(xx**2 + yy**2))` |
| Grids.PolarRadiusReflection | pyfso/utils/coords.py:6 | the radius of `(-x, -y)` equals the radius of `(x, y)` |
| Grids.PolarRadiusNonNegative | pyfso/utils/coords.py:6 | under the square-root law the radius is non-negative |
| Grids.Rot90 | pyfso/core.py:39 | a quarter turn maps an `R x C` array to `C x R` with `B[i][j] == A[j][C - 1 - i]` |
| Grids.Rot180 | pyfso/core.py:39 | two quarter turns reflect the array through its centre |
| Grids.Rot90FourTimes | pyfso/core.py:39 | four quarter turns give the array back |
| Grids.BuildGrid | pyfso/core.py:28-39 | both axes have `n + 1` entries, and `xx`, `yy`, `rho` and `phi` are all `(n+1) x (n+1)` |
| Grids.GridFromAxes | pyfso/core.py:37-39 | the grid keeps the axes, and every array has their common length as its shape |
| Grids.GridFromAxesCells | pyfso/core.py:37-39 | meshgrid cells; `rho` in meshgrid orientation; `phi[i][j]` is the raw angle of the point `(x[N-1-i], y[j])` |
| Grids.GridMesh | pyfso/core.py:37 | in the built grid `xx[i][j] == x[j]` and `yy[i][j] == y[i]`, with `x` and `y` the two axes |
| Grids.GridPolar | pyfso/core.py:38-39 | `rho[i][j]` is the radius of cell `[i][j]`, but `phi[i][j]` is the raw angle at `[j][n - i]`: only `phi` is rotated |
| Grids.PhiInCellCoordinates | pyfso/core.py:38-39 | the stored angle at a cell is `arctan2(-xx, yy)` of that same cell |
| Grids.MeshReflectionFromAxes | pyfso/core.py:37 | with antisymmetric axes, point reflection negates `xx` and `yy` |
| Grids.RhoReflectionFromAxes | pyfso/core.py:38 | with antisymmetric axes, point reflection leaves `rho` unchanged |
| Grids.AxesAntisymmetric | pyfso/core.py:29-36 | both axes satisfy `a[n - k] == -a[k]` |
| Grids.GridPointSymmetry | pyfso/core.py:37-38 | in the built grid `rho[n-i][n-j] == rho[i][j]`, while `xx` and `yy` change sign |
| Grids.RhoNonNegative | pyfso/core.py:38 | under the square-root law every `rho` entry is non-negative |
| Grids.RhoZeroAtCentre | pyfso/core.py:29-38 | when `n_samples` is even, the centre cell has `rho == 0` |
| Core.BaseMesh.constructor | pyfso/core.py:18-26 | keeps `n_samples` and `grid_length`, sets the spacing to `grid_length / n_samples`, and builds the grid from them |
| Core.BaseMesh.Init | pyfso/core.py:23-26 | the `__init__` body writes size, length and spacing over the old values and rebuilds the grid; with no arguments it writes 1023 and 5e-3 |
| Core.BaseMesh.CreateGrid | pyfso/core.py:28-39 | assigns exactly the grid of the current size and spacing, and changes nothing else |
| Core.Spread | pyfso/core.py:76 | `(z / z_R) ** 2` is non-negative |
| Core.Optics | pyfso/core.py:72-78 | `wave_number * wave_length == 2 pi`, `kt * 500 == wave_number`, `rayleigh_range * wave_length == pi * w0**2`, and the Rayleigh range is non-zero |
| Core.RayleighRangeNonZero | pyfso/core.py:74 | the Rayleigh range of a non-zero waist is non-zero, so the later division by it is defined |
| Core.SpreadMonotone | pyfso/core.py:76 | `(z / z_R) ** 2` grows with `abs(z)` |
| Core.WidthGrows | pyfso/core.py:75-77 | for a positive waist, `Core.Width` (`w0 * sqrt(1 + (z/z_R)**2)`, lines 75-77) is at least `w0` and grows with `abs(z)` |
| Core.BeamWidthAtWaist | pyfso/core.py:75-77 | at `z_coor = 0` the beam width equals the beam waist |
| Core.BeamWidthEven | pyfso/core.py:75-77 | the beam width is unchanged when the sign of `z_coor` flips |
| Core.BeamWidthAtRayleighRange | pyfso/core.py:74-77 | at `z_coor = z_R` the width is `w0 * sqrt(2)` |
| Core.BeamWidthGrows | pyfso/core.py:72-78 | for a positive waist the beam width is at least the waist and grows with distance from the waist |
| Core.BaseBeam.constructor | pyfso/core.py:52-70 | after `BaseBeam(...)` the mesh uses 1023 and 5e-3 whatever the caller passed; the beam parameters are the caller's, and the derived ones are `Optics` of them |
| Core.BaseBeam.Init | pyfso/core.py:61-70 | the same for the `__init__` body, replayed on any earlier state |
| Core.BaseBeam.ComputeOpticalParams | pyfso/core.py:72-78 | sets the four derived fields to `Optics` of the current wave length, waist and `z`, and leaves the inputs unchanged |
| FilmBase.BaseFilm.constructor | pyfso/films/base.py:20-34 | keeps all five arguments, sets the spacing to `grid_length / n_samples`, and builds that grid |
| FilmBase.BaseFilm.CreateGrid | pyfso/films/base.py:36-47 | assigns exactly the grid of the current size and spacing, and changes nothing else |
| ThinFilms.MaskOf | pyfso/films/thin_film.py:71-82 | the mask has the square shape of the mesh |
| ThinFilms.MaskCells | pyfso/films/thin_film.py:74-82 | a cell is 1.0 where the four-way test `ThinFilms.Open` (lines 74-79) holds and `transmittance` where it fails, as `ThinFilms.MaskCell` (lines 80-82) writes; if `transmittance != 1` a cell is 1.0 exactly where the test holds |
| ThinFilms.MaskValues | pyfso/films/thin_film.py:80-82 | every value is 1.0 or `transmittance`, so all values lie in `[0, 1]` when `transmittance` does |
| ThinFilms.Constant | pyfso/films/thin_film.py:71 | the constant mask has shape `N x N` |
| ThinFilms.MaskClosedBeyondQuarterTurn | pyfso/films/thin_film.py:77-82 | with `angle > pi/2` the mask is `transmittance` everywhere |
| ThinFilms.MaskFullyTransmitting | pyfso/films/thin_film.py:80-82 | with `transmittance == 1` the mask is all ones |
| ThinFilms.MaskRadiusSign | pyfso/films/thin_film.py:76 | `r` and `-r` give the same mask |
| ThinFilms.MaskRadiusMonotone | pyfso/films/thin_film.py:76 | a cell open for `abs(r1)` is open for every `abs(r2) >= abs(r1)`, so shrinking the radius only turns cells to `transmittance` |
| ThinFilms.ThinFilm.constructor | pyfso/films/thin_film.py:12-67 | after `ThinFilm(...)` the mesh uses 1023 and 5e-3 whatever the caller passed; `r`, `angle` and `transmittance` are the caller's; there is no mask yet |
| ThinFilms.ThinFilm.Init | pyfso/films/thin_film.py:61-67 | the same for the `__init__` body, replayed on any earlier state |
| ThinFilms.ThinFilm.Create | pyfso/films/thin_film.py:69-83 | returns a new `N x N` array whose contents are `MaskOf` the mesh and film parameters (none of the initial ones survive), stores it in `c_mask`, and changes nothing else |
| BesselBeams.JvField | pyfso/oam/bessel_gauss.py:87-93 | the `"Jv"` field has the shape of `rho`, and each cell is `BesselBeams.JvCell` at that cell's `rho` and `phi`: `jv(m, kt*rho)` (line 88) times `exp(i*m*phi)` (line 90) times `BesselBeams.Gaussian`, which is `exp(-rho**2 / w**2)` (line 91) |
| BesselBeams.IvField | pyfso/oam/bessel_gauss.py:113-122 | the `"Iv"` field has the shape of `rho`, and each cell is `BesselBeams.IvCell` at that cell's `rho` and `phi`: the coefficient `BesselBeams.IvCoefficient` (lines 100-105) times the Bessel difference `BesselBeams.IvBessel` (lines 106-112) times `rho`, `BesselBeams.Gaussian` and `exp(i*m*phi)` (lines 113-122) |
| BesselBeams.Intensity | pyfso/oam/bessel_gauss.py:128-130 | `E * conj(E)` has `E`'s shape, and each entry is `(re**2 + im**2, 0)` with a non-negative real part |
| BesselBeams.JvCellNorm | pyfso/oam/bessel_gauss.py:87-93 | under the unit-circle law, the `"Jv"` intensity of a cell is the radial profile at its `rho`, whatever `phi` is |
| BesselBeams.CoefficientScaleSquare | pyfso/oam/bessel_gauss.py:101 | `(sqrt(pi) / w0) ** 2 == pi / w0**2` |
| BesselBeams.PhaseProductNorm | pyfso/oam/bessel_gauss.py:101-104 | a real times three unit phases has that real's square as its squared modulus |
| BesselBeams.IvCoefficientNorm | pyfso/oam/bessel_gauss.py:100-105 | the coefficient `coff`, modelled as `BesselBeams.IvCoefficient` (`sqrt(pi)/w0` times three unit phases, lines 100-105), has squared modulus `pi / beam_waist**2` |
| BesselBeams.IvCellNorm | pyfso/oam/bessel_gauss.py:113-122 | under the unit-circle law, the `"Iv"` intensity of a cell is the radial profile at its `rho`, whatever `phi` is |
| BesselBeams.IvFieldZeroWhereRhoZero | pyfso/oam/bessel_gauss.py:113-122 | the `"Iv"` field is 0 at every cell where `rho == 0` |
| BesselBeams.IvFieldZeroAtCentre | pyfso/oam/bessel_gauss.py:113-122 | on the built grid with even `n_samples`, the `"Iv"` field is 0 at the centre cell |
| BesselBeams.JvIntensityEqualWhereRhoEqual | pyfso/oam/bessel_gauss.py:128-130 | two cells with equal `rho` have equal `"Jv"` intensity |
| BesselBeams.IvIntensityEqualWhereRhoEqual | pyfso/oam/bessel_gauss.py:128-130 | two cells with equal `rho` have equal `"Iv"` intensity |
| BesselBeams.JvIntensityPointSymmetry | pyfso/oam/bessel_gauss.py:128-130 | on the built grid the `"Jv"` intensity is symmetric under point reflection through the centre |
| BesselBeams.IvIntensityPointSymmetry | pyfso/oam/bessel_gauss.py:128-130 | on the built grid the `"Iv"` intensity is symmetric under point reflection through the centre |
| BesselBeams.BesselGauss.constructor | pyfso/oam/bessel_gauss.py:13-82 | after `BesselGauss(...)` only `kind` keeps the caller's value; every numeric parameter and the mesh are the `BaseBeam` defaults, with spacing `5e-3 / 1023` and the grid built from it; there is no field yet |
| BesselBeams.BesselGauss.Init | pyfso/oam/bessel_gauss.py:75-82 | the same for the `__init__` body, replayed on any earlier state, including the mesh spacing `5e-3 / 1023` |
| BesselBeams.BesselGauss.Create | pyfso/oam/bessel_gauss.py:84-126 | `"Jv"` assigns the `"Jv"` field and `"Iv"` the `"Iv"` field, each from the current beam and mesh; any other kind fails with the `ValueError` message and leaves `E` as it was |
| BesselBeams.BesselGauss.ComputeIntensity | pyfso/oam/bessel_gauss.py:128-130 | succeeds exactly when a field exists, failing otherwise; on success it has exactly the field's shape, row by row, and holds `(abs(E)**2, 0)` in every cell of `E` |
| Diffraction.PipelineAppend | pyfso/diffraction/core.py:106-107 | running `ps + qs` is running `ps` and then `qs` on its output |
| Diffraction.PipelineIsRunFrom | pyfso/diffraction/core.py:106-107 | applying the last processor to the rest's output equals applying the first processor and running the rest on its output |
| Diffraction.PipelineBaseCases | pyfso/diffraction/core.py:106-110 | no processors return the input unchanged; one processor is called once, on the input, with the shared `kwargs` |
| Diffraction.CompositeIndicator.constructor | pyfso/diffraction/core.py:88-89 | stores the processors and `kwargs`; no dataset yet |
| Diffraction.CompositeIndicator.Build | pyfso/diffraction/core.py:91-110 | returns `Diffraction.Pipeline` of the input: the processors applied in list order, each to the previous output with the same `kwargs` (lines 106-107), which equals the front-first reading `Diffraction.RunFrom`; stores that value in `dataset`; leaves processors and `kwargs` unchanged |
| Diffraction.CompositeIndicator.Export | pyfso/diffraction/core.py:112-114 | changes no state |
| Diffraction.CompositeIndicator.Plot | pyfso/diffraction/core.py:116-118 | changes no state |

## Left out

- The numeric values of `sqrt`, `arctan2`, `exp`, `cos`, `sin`, `jv` and `iv`. They are opaque fields of `Library`, and only the two laws above are ever required.
- Floating-point rounding, infinities and NaN. All arithmetic is exact real arithmetic. This includes the length of `np.arange`, which is taken as exactly `n_samples + 1`.
- `ZeroDivisionError`. Python raises it for `n_samples == 0`, for `wave_length == 0`, and for `beam_waist == 0` (through the Rayleigh range). The model turns each case into a `requires`, because no caller catches the error.
- BesselBeams.BesselGauss.Create: requires a non-zero beam width, and for `"Iv"` also a non-zero waist and Rayleigh range. It also requires `rho` and `phi` to have one shape. The source fails differently in each case. A zero Rayleigh range raises `ZeroDivisionError` at `z_coor / rayleigh_range` (pyfso/oam/bessel_gauss.py:102), since both are Python floats. It cannot arise anyway, because `compute_optical_params` has already divided by it (pyfso/core.py:76), and `Core.Optics` proves it is non-zero. A zero `beam_width` (a numpy float64 from `np.sqrt`) or a zero `beam_waist` in `np.sqrt(np.pi) / beam_waist` gives `inf`/`NaN` entries in numpy. Shapes numpy cannot broadcast raise its broadcasting error. Broadcastable shapes that differ, such as an `N x N` `rho` with a `1 x N` `phi`, go through without error, and they are not modelled.
- ThinFilms.ThinFilm.Create: requires `xx`, `yy` and `phi` to be square and of one size, as after construction. For some other shapes numpy raises `IndexError`. For others it fills only the leading `len(xx) x len(xx)` block, and when `len(yy) > len(xx)` the remaining columns keep their initial 1.0. Neither case is modelled.
- The locals `n`, `d` and `thetaG` and the two discarded expressions at pyfso/oam/bessel_gauss.py:95-99 are not modelled. They have no effect on any field.
- The `j = 0.0 + 1.0j` assignments become the complex unit inside `Numerics.Expi`. In `create` of the thin film, this `j` is shadowed by the loop variable and never used.
- Python object identity. A subclass object and its base part are one object in Python but two objects here (`mesh`, `beam`). Attributes that do not exist yet are modelled as follows:
  - the `Blank` constructors leave the fields unspecified;
  - `E` is `None` before `create`;
  - `c_mask` is `null` before `create`.
- The `AttributeError` that `compute_intensity` raises before `create` becomes a `Failure` result.
- Processors are modelled as total, side-effect-free functions `(D, K) -> D`. A processor that raises, logs or mutates the dataset or `kwargs` is not modelled. `TradingDataset` and the `kwargs` dictionary are the type parameters `D` and `K`.
- Plotting (`plot_film`, `plot_beam`, `plt.style.use` and `plt.style.context`) is a display side effect.
- The abstract base classes (`AbstractMesh`, `AbstractBeam`, `AbstractBase`, `Processor`, `IndicatorABC`) and their `print`/logging calls. They only announce the class name.
- `pol2cart` and the duplicate `cart2pol` in pyfso/core/utils.py. Nothing in the core calls them.
- pyfso/oam/base.py is not part of this model. Nothing in the core uses it, and its grid logic duplicates `create_grid`.
