/** The shallow-water grid stepper of shallow_water_simulation.py, as values.

    The script keeps its fields in module-level NumPy arrays and updates them in
    place; here a `Grid` holds the contents of all fourteen arrays and every
    statement of `animStep` is a function from one `Grid` to the next. The
    class in shallow_water.dfy runs the same statements on `array2<real>` and is
    proved to produce exactly these values. Floats are modelled as exact reals. */
module ShallowWaterModel {
  import opened Matrix

  /** The rotation profiles the script recognises; any other name is `NoRotation`. */
  datatype RotationScheme = WithLatitude | PlusMinus | UniformRotation | NoRotation

  /** The wind profiles the script recognises; any other name is `NoWind`. */
  datatype WindScheme = Curled | UniformWind | NoWind

  /** The initial height perturbations; any other name is `NoPerturbation`. */
  datatype Perturbation = Tower | NSGradient | EWGradient | NoPerturbation

  /** The script's grid size and switches (lines 18-32). */
  datatype Config = Config(
    nrow: nat, ncol: nat,
    ntAnim: nat,                  // sweeps per call of animStep
    horizontalWrap: bool, interpolateRotation: bool,
    rotationScheme: RotationScheme, windScheme: WindScheme,
    initialPerturbation: Perturbation)

  /** The values the script is shipped with (`windScheme = ""` selects no wind). */
  const ScriptConfig := Config(5, 5, 1, true, false, PlusMinus, NoWind, Tower)

  // The physical constants of lines 34-44, fixed in the script.
  const dT: real := 600.0            // seconds
  const G: real := 9.8e-4            // artificially low to allow a long time step
  const HBackground: real := 4000.0  // metres
  const dX: real := 1.0e4            // metres
  const dY: real := dX
  const dxDegrees: real := dX / 110.0e3
  const flowConst: real := G
  const dragConst: real := 1.0e-6
  const meanLatitude: real := 30.0   // degrees

  /** Number of calls of animStep the script's driver loop makes. */
  const ScriptSlices: nat := 1000

  /** What the script needs of its settings: a non-empty grid and a tower
      cell `H[midCell, midCell]` that exists. */
  ghost predicate ValidConfig(cfg: Config) {
    && cfg.nrow >= 1 && cfg.ncol >= 1
    && (cfg.initialPerturbation == Tower ==> cfg.ncol / 2 < cfg.nrow)
  }

  /** The entry Python's `a[i - 1]` reaches on an axis of length `n`: `a[-1]` is the last one. */
  function Prev(i: nat, n: nat): (p: nat)
    requires i < n
    ensures p < n
  {
    if i == 0 then n - 1 else i - 1
  }

  // ---------------------------------------------------------------------------
  // Forcing profiles (shallow_water_simulation.py:46-65)

  /** The per-row tables built at start-up. `latitude` is only filled by the
      `WithLatitude` scheme. */
  datatype Profiles = Profiles(latitude: seq<real>, rotConst: seq<real>, windU: seq<real>)

  ghost predicate Fits(cfg: Config, prof: Profiles) {
    |prof.rotConst| == cfg.nrow && |prof.windU| == cfg.nrow
  }

  /** Row `irow`'s latitude in degrees. */
  function Latitude(cfg: Config, irow: nat): real {
    meanLatitude + (irow as real - cfg.nrow as real / 2.0) * dxDegrees
  }

  /** Row `irow`'s rotation coefficient. `sin` and `radians` stand for
      `math.sin` and `math.radians`, which the model leaves uninterpreted. */
  function RotationCoefficient(cfg: Config, sin: real -> real, radians: real -> real, irow: nat): real
    requires cfg.nrow >= 1
  {
    match cfg.rotationScheme
    case WithLatitude => -7.0e-5 * sin(radians(Latitude(cfg, irow)))
    case PlusMinus => -3.5e-5 * (1.0 - 0.8 * (irow as real - (cfg.nrow as real - 1.0) / 2.0) / cfg.nrow as real)
    case UniformRotation => -3.5e-5
    case NoRotation => 0.0
  }

  /** Row `irow`'s wind forcing; the `Curled` profile uses 3.14 for pi, as the script does. */
  function WindCoefficient(cfg: Config, sin: real -> real, irow: nat): real
    requires cfg.nrow >= 1
  {
    match cfg.windScheme
    case Curled => 1.0e-8 * sin((irow as real + 0.5) / cfg.nrow as real * 2.0 * 3.14)
    case UniformWind => 1.0e-8
    case NoWind => 0.0
  }

  /** The three tables, row by row. */
  function ProfilesOf(cfg: Config, sin: real -> real, radians: real -> real): (prof: Profiles)
    requires cfg.nrow >= 1
    ensures Fits(cfg, prof)
  {
    Profiles(
      if cfg.rotationScheme == WithLatitude then seq(cfg.nrow, i requires 0 <= i => Latitude(cfg, i)) else [],
      seq(cfg.nrow, i requires 0 <= i => RotationCoefficient(cfg, sin, radians, i)),
      seq(cfg.nrow, i requires 0 <= i => WindCoefficient(cfg, sin, i)))
  }

  // ---------------------------------------------------------------------------
  // Grid state (shallow_water_simulation.py:69-86)

  /** Entry `[i, j]` of each of the fourteen arrays the script allocates. */
  datatype Cell = Cell(
    U: real, V: real, H: real,
    dUdT: real, dVdT: real, dHdT: real,
    dHdX: real, dHdY: real, dUdX: real, dVdY: real,
    rotV: real, rotU: real,
    tempU: real, tempV: real)

  const ZeroCell := Cell(0.0, 0.0, 0.0, 0.0, 0.0, 0.0, 0.0, 0.0, 0.0, 0.0, 0.0, 0.0, 0.0, 0.0)

  /** The staggered grid as `nrow + 1` rows of `ncol + 1` cells. The arrays have
      different extents: `U`, `H` and `dHdX` reach column `ncol`, `V` reaches
      row `nrow`, the others stop at row `nrow - 1` and column `ncol - 1`. An
      entry of a cell beyond its array's extent stands for nothing and is kept
      zero (see `Padded`). */
  type Grid = seq<seq<Cell>>

  ghost predicate WellShaped(cfg: Config, g: Grid) {
    IsMatrix(g, cfg.nrow + 1, cfg.ncol + 1)
  }

  /** Cell `(i, j)` lies in the `nrow` by `ncol` block that the sweep loops visit. */
  predicate Interior(cfg: Config, i: nat, j: nat) {
    i < cfg.nrow && j < cfg.ncol
  }

  /** Every entry beyond its array's extent is zero. */
  ghost predicate Padded(cfg: Config, g: Grid)
    requires WellShaped(cfg, g)
  {
    forall i, j :: 0 <= i <= cfg.nrow && 0 <= j <= cfg.ncol ==>
      var e := g[i][j];
      && (i == cfg.nrow ==> e.U == 0.0 && e.H == 0.0 && e.dHdX == 0.0)
      && (j == cfg.ncol ==> e.V == 0.0)
      && (!Interior(cfg, i, j) ==>
            && e.dUdT == 0.0 && e.dVdT == 0.0 && e.dHdT == 0.0 && e.dHdY == 0.0
            && e.dUdX == 0.0 && e.dVdY == 0.0 && e.rotV == 0.0 && e.rotU == 0.0
            && e.tempU == 0.0 && e.tempV == 0.0)
  }

  /** `H[i, j]` after the initial perturbation, with `midCell = int(ncol/2)`. */
  function InitialHeight(cfg: Config, i: nat, j: nat): real {
    var midCell := cfg.ncol / 2;
    if i < cfg.nrow && j <= cfg.ncol then
      match cfg.initialPerturbation
      case Tower => if i == midCell && j == midCell then 1.0 else 0.0
      case NSGradient => if i < midCell then 0.1 else 0.0
      case EWGradient => if j < midCell then 0.1 else 0.0
      case NoPerturbation => 0.0
    else 0.0
  }

  /** Every array zero except `H`, which holds the initial perturbation. */
  function Initial(cfg: Config): (g: Grid)
    ensures WellShaped(cfg, g)
  {
    seq(cfg.nrow + 1, i requires 0 <= i => seq(cfg.ncol + 1, j requires 0 <= j => ZeroCell.(H := InitialHeight(cfg, i, j))))
  }

  // ---------------------------------------------------------------------------
  // animStep (shallow_water_simulation.py:96-149)

  /** Cell `(i, j)` after the boundary block: rows `nrow` and 0 of `V` zeroed,
      then either column 0 of `U` and `H` copied into column `ncol`, or
      columns 0 and `ncol` of `U` zeroed. */
  function BoundaryCell(cfg: Config, g: Grid, i: nat, j: nat): Cell
    requires WellShaped(cfg, g) && i <= cfg.nrow && j <= cfg.ncol
  {
    var e := g[i][j];
    var e := if (i == cfg.nrow || i == 0) && j < cfg.ncol then e.(V := 0.0) else e;
    if i < cfg.nrow && j == cfg.ncol && cfg.horizontalWrap then e.(U := g[i][0].U, H := g[i][0].H)
    else if i < cfg.nrow && (j == 0 || j == cfg.ncol) && !cfg.horizontalWrap then e.(U := 0.0)
    else e
  }

  /** The boundary block of animStep, lines 100-110. */
  function Boundary(cfg: Config, g: Grid): (b: Grid)
    requires WellShaped(cfg, g)
    ensures WellShaped(cfg, b)
  {
    seq(cfg.nrow + 1, i requires 0 <= i <= cfg.nrow => seq(cfg.ncol + 1, j requires 0 <= j <= cfg.ncol => BoundaryCell(cfg, g, i, j)))
  }

  /** The grid-and-profile facts every cell update needs. */
  ghost predicate Ready(cfg: Config, prof: Profiles, g: Grid) {
    ValidConfig(cfg) && Fits(cfg, prof) && WellShaped(cfg, g)
  }

  /** A velocity times a row's rotation coefficient. */
  function Rotated(a: real, b: real): real { a * b }

  /** The entries the loop body reads for cell `(r, c)`: the cell's own `U`,
      `V`, `H`, `tempU` and `tempV`, and its east `U`, south `V`, west and
      north `H`, north `tempU` and west `tempV`. */
  datatype Stencil = Stencil(
    u: real, uEast: real, v: real, vSouth: real,
    h: real, hWest: real, hNorth: real,
    tempU: real, tempUNorth: real, tempV: real, tempVWest: real)

  /** The stencil of cell `(r, c)`. Index `-1` wraps: `H[r, -1]` is column
      `ncol`, `H[-1, c]` and `tempU[-1, c]` are row `nrow - 1`, `tempV[r, -1]`
      is column `ncol - 1`. */
  function StencilAt(cfg: Config, g: Grid, r: nat, c: nat): Stencil
    requires WellShaped(cfg, g) && Interior(cfg, r, c)
  {
    var e, pr, pc := g[r][c], Prev(r, cfg.nrow), Prev(c, cfg.ncol);
    Stencil(e.U, g[r][c + 1].U, e.V, g[r + 1][c].V,
            e.H, g[r][Prev(c, cfg.ncol + 1)].H, g[pr][c].H,
            e.tempU, g[pr][c].tempU, e.tempV, g[r][pc].tempV)
  }

  /** The loop body of the sweep (lines 117-147) on one stencil: the four
      spatial derivatives, the rotational terms, the time derivatives, and
      then `U`, `V` and `H` stepped forward. Interpolated mode first writes
      the cell's `tempU`/`tempV` and then averages it with the entry of the
      row above (column to the left), which is the cell itself when the grid
      has a single row (column): `northSelf` (`westSelf`). */
  function Combine(interpolate: bool, rot: real, wind: real, s: Stencil, northSelf: bool, westSelf: bool): (e': Cell)
  {
    var hx := (s.h - s.hWest) / dX;
    var ux := (s.uEast - s.u) / dX;
    var hy := (s.h - s.hNorth) / dY;
    var vy := (s.vSouth - s.v) / dY;
    var tu := if interpolate then Rotated((s.u + s.uEast) / 2.0, rot) else s.tempU;
    var tv := if interpolate then Rotated((s.v + s.vSouth) / 2.0, rot) else s.tempV;
    var ru := if interpolate then (tu + (if northSelf then tu else s.tempUNorth)) / 2.0 else Rotated(rot, s.u);
    var rv := if interpolate then (tv + (if westSelf then tv else s.tempVWest)) / 2.0 else Rotated(rot, s.v);
    var ut := rv - flowConst * hx - dragConst * s.u + wind;
    var vt := -ru - flowConst * hy - dragConst * s.v;
    var ht := -(ux + vy) * HBackground / dX;
    Cell(s.u + ut * dT, s.v + vt * dT, s.h + ht * dT, ut, vt, ht, hx, hy, ux, vy, rv, ru, tu, tv)
  }

  /** Cell `(r, c)` after the loop body, in row `r`'s forcing. */
  function Updated(cfg: Config, prof: Profiles, g: Grid, r: nat, c: nat): (e': Cell)
    requires Ready(cfg, prof, g) && Interior(cfg, r, c)
  {
    Combine(cfg.interpolateRotation, prof.rotConst[r], prof.windU[r], StencilAt(cfg, g, r, c),
            Prev(r, cfg.nrow) == r, Prev(c, cfg.ncol) == c)
  }

  /** The loop body for cell `(r, c)`: that cell replaced, nothing else written. */
  function CellStep(cfg: Config, prof: Profiles, g: Grid, r: nat, c: nat): (g': Grid)
    requires Ready(cfg, prof, g) && Interior(cfg, r, c)
    ensures WellShaped(cfg, g')
  {
    Set(g, r, c, Updated(cfg, prof, g, r, c))
  }

  /** Position `(c, r)` of the column-major sweep is reached once every cell of
      columns `0..c-1` and rows `0..r-1` of column `c` has been done. */
  ghost predicate Position(cfg: Config, c: nat, r: nat) {
    (c < cfg.ncol && r <= cfg.nrow) || (c == cfg.ncol && r == 0)
  }

  /** Cell `(i, j)` comes before position `(c, r)` in the sweep. */
  predicate Visited(i: nat, j: nat, c: nat, r: nat) {
    j < c || (j == c && i < r)
  }

  /** The grid when the sweep reaches position `(c, r)`: the cells before it
      updated one after another, `icol` outer and `irow` inner. */
  function SweepUpTo(cfg: Config, prof: Profiles, g: Grid, c: nat, r: nat): (s: Grid)
    requires Ready(cfg, prof, g) && Position(cfg, c, r)
    ensures WellShaped(cfg, s)
    decreases c, r
  {
    if r > 0 then CellStep(cfg, prof, SweepUpTo(cfg, prof, g, c, r - 1), r - 1, c)
    else if c > 0 then SweepUpTo(cfg, prof, g, c - 1, cfg.nrow)
    else g
  }

  /** One pass over all `nrow * ncol` cells. */
  function Sweep(cfg: Config, prof: Profiles, g: Grid): (s: Grid)
    requires Ready(cfg, prof, g)
    ensures WellShaped(cfg, s)
  {
    SweepUpTo(cfg, prof, g, cfg.ncol, 0)
  }

  /** `n` passes, as the `for it in range(0, ntAnim)` loop makes. */
  function Sweeps(cfg: Config, prof: Profiles, g: Grid, n: nat): (s: Grid)
    requires Ready(cfg, prof, g)
    ensures WellShaped(cfg, s)
  {
    if n == 0 then g else Sweep(cfg, prof, Sweeps(cfg, prof, g, n - 1))
  }

  /** One call of animStep: the boundary block, then `ntAnim` sweeps. */
  function AnimStep(cfg: Config, prof: Profiles, g: Grid): (s: Grid)
    requires Ready(cfg, prof, g)
    ensures WellShaped(cfg, s)
  {
    Sweeps(cfg, prof, Boundary(cfg, g), cfg.ntAnim)
  }

  /** `n` calls of animStep, as the driver loop makes. */
  function Run(cfg: Config, prof: Profiles, g: Grid, n: nat): (s: Grid)
    requires Ready(cfg, prof, g)
    ensures WellShaped(cfg, s)
  {
    if n == 0 then g else AnimStep(cfg, prof, Run(cfg, prof, g, n - 1))
  }
}
