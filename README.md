# Shallow water and ice sheet simulations, modelled in Dafny

This project models the two numerical cores of the climate-modelling scripts.

**`shallow_water_simulation.py`** is a staggered-grid shallow-water stepper on fourteen NumPy arrays:

- three prognostic fields `U`, `V` and `H`;
- three time derivatives, four spatial derivatives, two rotational terms and two interpolation scratch arrays.

At start-up it builds per-row rotation and wind tables and perturbs `H`. Each call of `animStep` then does three things:

- pins the boundary rows and columns;
- sweeps every cell `ntAnim` times, column by column and row by row, updating the arrays in place;
- counts the sweeps in `itGlobal`.

The driver loop calls `animStep` `nSlices` times.

The model comes in two layers:

- `ShallowWaterModel` states every statement as a function on a value-level `Grid`. It has one `Cell` per grid point, holding the entry of each array that reaches that point.
- The class `ShallowWater.Simulation` keeps the fourteen arrays as `array2<real>` fields and runs the same loops with `while` statements. Each of its methods is proved to leave exactly the grid the functions describe.

The lemmas then say what a sweep computes, as Gauss-Seidel equations in terms of old and already updated neighbours:

- which entries it never writes;
- what the boundary block guarantees after a call;
- what the forcing tables and the initial perturbation look like;
- that a calm ocean at rest stays at rest.

**`ice_sheet_simulation.py`** is a one-dimensional ice sheet on two arrays: `elevations`, with `nX + 2` points whose two edges stay fixed, and `flows`, with `nX + 1` gaps.

Each of the 200 time steps makes two passes:

- a flow pass, which computes from the current elevations the flux across every gap;
- an elevation pass, which moves every interior point by snow plus inflow minus outflow.

`IceSheetModel` states these passes as functions on sequences, each built entry by entry in the order the script writes them. The class `IceSheet.Sheet` runs them in place on two arrays.

The lemmas prove the following:

- the flux law: ice flows downhill, flat ice does not flow, and the edge fluxes point outward;
- conservation: a step changes the interior volume by the snowfall plus the edge fluxes;
- the edges never move;
- the run adds at most one step of snow per step;
- the sheet grown from bare ground is mirror-symmetric;
- the exact result of the first step.

Floats are modelled as exact reals throughout.

## Model

| member | source | states |
|---|---|---|
| ShallowWater.BuildProfiles | shallow_water_simulation.py:46-65 | the start-up loop appends to the latitude, rotation and wind tables exactly the per-row values `ProfilesOf` gives, in row order |
| ShallowWaterModel.ProfilesOf | shallow_water_simulation.py:46-65 | the rotation and wind tables have one entry per row |
| ShallowWaterModel.Latitude | shallow_water_simulation.py:50-51 | definition of row `irow`'s latitude, `meanLatitude + (irow - nrow/2) * dxDegrees` |
| ShallowWaterModel.RotationCoefficient | shallow_water_simulation.py:50-58 | definition of row `irow`'s rotation coefficient under each `rotationScheme`, with the fall-through giving 0 |
| ShallowWaterModel.WindCoefficient | shallow_water_simulation.py:60-65 | definition of row `irow`'s wind forcing under each `windScheme`, with 3.14 for pi and the fall-through giving 0 |
| ShallowWaterModel.Prev | shallow_water_simulation.py:117-133 | definition of the entry Python's `a[i-1]` reaches on an axis of length `n`, with `a[-1]` the last one |
| ShallowWaterModel.InitialHeight | shallow_water_simulation.py:88-94 | definition of `H[i, j]` after the perturbation block, with `midCell = int(ncol/2)` and NumPy's slice clipping |
| ShallowWaterModel.Initial | shallow_water_simulation.py:69-94 | definition of the start-up grid: every array zero except `H`, which holds `InitialHeight` |
| ShallowWaterModel.BoundaryCell | shallow_water_simulation.py:100-110 | definition of one cell after the boundary block: `V` zeroed in rows `nrow` and 0, then column 0 of `U` and `H` copied into column `ncol` with wrap, or columns 0 and `ncol` of `U` zeroed without |
| ShallowWaterModel.Boundary | shallow_water_simulation.py:100-110 | definition of the boundary block: `BoundaryCell` at every grid point |
| ShallowWaterModel.StencilAt | shallow_water_simulation.py:117-133 | definition of the eleven entries the loop body reads for cell `(r, c)`, at the `Prev` and `+1` neighbours |
| ShallowWaterModel.Combine | shallow_water_simulation.py:117-147 | definition of the loop body's arithmetic: the derivatives, the direct or interpolated rotational terms, the tendencies and the forward step, from one stencil |
| ShallowWaterModel.Updated | shallow_water_simulation.py:116-147 | definition of cell `(r, c)` after the loop body, in row `r`'s rotation and wind |
| ShallowWaterModel.CellStep | shallow_water_simulation.py:116-147 | definition of one loop body: cell `(r, c)` replaced by `Updated`, every other cell kept |
| ShallowWaterModel.SweepUpTo | shallow_water_simulation.py:114-147 | definition of the grid when the sweep reaches `(icol, irow)`: the earlier cells updated one after another, `icol` outer and `irow` inner |
| ShallowWaterModel.Sweep | shallow_water_simulation.py:114-147 | definition of one pass of the `icol`/`irow` loops over all `nrow * ncol` cells |
| ShallowWaterModel.Sweeps | shallow_water_simulation.py:113-147 | definition of the `it` loop: `n` passes one after another |
| ShallowWaterModel.AnimStep | shallow_water_simulation.py:96-147 | definition of one call of animStep: the boundary block, then `ntAnim` sweeps |
| ShallowWaterModel.Run | shallow_water_simulation.py:228-229 | definition of the driver loop: `n` calls of animStep one after another |
| ShallowWaterStart.LatitudeTable | shallow_water_simulation.py:49-52 | only `WithLatitude` fills the latitude table; its entries step by `dxDegrees` per row, sum pairwise (rows `i` and `nrow-1-i`) to `2 * meanLatitude - dxDegrees`, and feed each row's rotation coefficient |
| ShallowWaterStart.PlusMinusCentred | shallow_water_simulation.py:53-54 | under `PlusMinus` rows `i` and `nrow-1-i` have coefficients summing to -7e-5 |
| ShallowWaterStart.PlusMinusIncreasing | shallow_water_simulation.py:53-54 | under `PlusMinus` the coefficient strictly increases with the row |
| ShallowWaterStart.PlusMinusBounds | shallow_water_simulation.py:53-54 | under `PlusMinus` every coefficient lies strictly between -4.9e-5 and -2.1e-5 |
| ShallowWaterStart.ConstantProfiles | shallow_water_simulation.py:55-65 | `Uniform` rotation gives -3.5e-5 and `Uniform` wind 1e-8 in every row; unrecognised names give 0 |
| ShallowWaterStart.PrevIsPythonIndex | shallow_water_simulation.py:117-133 | the neighbour index `i-1` used by the stencil is Python's, with `-1` meaning the last entry of the axis |
| ShallowWaterLayout.Zeroed | shallow_water_simulation.py:69-86 | `np.zeros((rows, cols))`: a fresh array of that extent, all zero |
| ShallowWaterLayout.Allocate | shallow_water_simulation.py:69-86 | fourteen fresh, distinct, all-zero arrays with the script's fourteen extents |
| ShallowWaterLayout.Zeros | shallow_water_simulation.py:69-86 | definition of `np.zeros` for a given shape: every entry zero (what `Zeroed` is proved to allocate) |
| ShallowWaterLayout.Put | shallow_water_simulation.py:90 | assigning one entry changes that entry and no other |
| ShallowWaterLayout.Filled | shallow_water_simulation.py:92-94 | definition of NumPy's slice assignment: the entries inside the block, clipped to the array, take the value and all others are kept (what `Fill` is proved to leave) |
| ShallowWaterLayout.Fill | shallow_water_simulation.py:92-94 | the in-place slice assignment leaves the array holding `Filled` of its old contents |
| ShallowWaterLayout.CopyColumn | shallow_water_simulation.py:105-106 | definition of the column copy: column `to` takes column `from` and every other entry is kept (what `CopyColumnOf` is proved to leave) |
| ShallowWaterLayout.CopyColumnOf | shallow_water_simulation.py:105-106 | the in-place column copy leaves the array holding `CopyColumn` of its old contents |
| ShallowWaterLayout.Perturbed | shallow_water_simulation.py:88-94 | definition of `H` after the perturbation block, as `Put` or `Filled` of its old contents |
| ShallowWaterLayout.BoundaryFields | shallow_water_simulation.py:100-110 | definition of the fourteen arrays after the boundary block, statement by statement |
| ShallowWaterLayout.SetAll | shallow_water_simulation.py:117-147 | definition of the loop body's writes: entry `[r, c]` of each array set to the matching field of the new cell |
| ShallowWaterLayout.StencilOf | shallow_water_simulation.py:117-133 | definition of the eleven stencil entries read off the arrays at Python's indices |
| ShallowWaterLayout.AssembleInitial | shallow_water_simulation.py:69-94 | the zero arrays with perturbed `H` make up the model's initial grid |
| ShallowWaterLayout.ApplyBoundary | shallow_water_simulation.py:100-110 | the boundary block zeroes rows `nrow` and 0 of `V`; with wrap it copies column 0 of `U` and `H` into column `ncol`, otherwise it zeroes columns 0 and `ncol` of `U` and leaves `H` |
| ShallowWaterLayout.AssembleBoundary | shallow_water_simulation.py:100-110 | the boundary block on the arrays is the model's `Boundary` on the grid they make up |
| ShallowWaterLayout.AssembleSetAll | shallow_water_simulation.py:117-147 | writing entry `[r, c]` of every array changes cell `(r, c)` of the grid and nothing else |
| ShallowWaterLayout.StepFields | shallow_water_simulation.py:117-147 | the loop body computed from the stencil read off the arrays, and written back, is the model's update of that cell |
| ShallowWater.Simulation.constructor | shallow_water_simulation.py:46-94 | the start-up code leaves the tables `ProfilesOf`, `itGlobal == 0`, fresh arrays, and the model's initial grid |
| ShallowWater.Simulation.Perturb | shallow_water_simulation.py:88-94 | the perturbation block leaves `H` as `Perturbed` gives it |
| ShallowWater.Simulation.WriteCell | shallow_water_simulation.py:116-147 | the writes of the loop body change entry `[r, c]` of every array and nothing else |
| ShallowWater.Simulation.ReadStencil | shallow_water_simulation.py:116-133 | the loop body reads the eleven stencil entries, with Python's negative indices |
| ShallowWater.Simulation.StepCell | shallow_water_simulation.py:116-147 | the loop body for cell `(r, c)` leaves the model's `CellStep` of the grid |
| ShallowWater.Simulation.BoundaryConditions | shallow_water_simulation.py:100-110 | the arrays after the boundary block make up `Boundary` of the grid before it |
| ShallowWater.Simulation.Advance | shallow_water_simulation.py:115-147 | one turn of the `irow` loop moves the sweep from position `(c, r)` to `(c, r + 1)` |
| ShallowWater.Simulation.NextColumn | shallow_water_simulation.py:114-115 | the end of column `c` is the start of column `c + 1` |
| ShallowWater.Simulation.SweepColumn | shallow_water_simulation.py:115-147 | the `irow` loop carries the sweep through column `c` |
| ShallowWater.Simulation.Sweep | shallow_water_simulation.py:114-147 | the `icol`/`irow` loops leave exactly the model's `Sweep` of the grid |
| ShallowWater.Simulation.NextSweep | shallow_water_simulation.py:113-147 | one turn of the `it` loop adds one sweep |
| ShallowWater.Simulation.SweepRepeatedly | shallow_water_simulation.py:113-147 | the `it` loop leaves `ntAnim` sweeps of the grid |
| ShallowWater.Simulation.AnimStep | shallow_water_simulation.py:96-149 | animStep leaves the model's `AnimStep` of the grid and adds `ntAnim` to `itGlobal` |
| ShallowWater.Simulation.NextSlice | shallow_water_simulation.py:228-229 | one turn of the driver loop adds one call of animStep and `ntAnim` sweeps to the count |
| ShallowWater.Simulation.Slices | shallow_water_simulation.py:228-229 | the driver loop leaves `n` calls of animStep and `itGlobal` raised by `n * ntAnim` |
| ShallowWater.Simulation.Simulate | shallow_water_simulation.py:228-229 | `n` calls of animStep leave the model's `Run` of the grid, `n * ntAnim` sweeps counted |
| ShallowWater.RunScript | shallow_water_simulation.py:18-229 | the script as shipped ends holding `Run` of the initial grid for 1000 calls, with `itGlobal == 1000` |
| ShallowWaterStart.TowerInitial | shallow_water_simulation.py:88-90 | `Tower` puts 1 at `H[midCell, midCell]` and leaves every other height zero |
| ShallowWaterStart.GradientInitial | shallow_water_simulation.py:88-94 | `NSGradient` raises by 0.1 whole rows before `midCell`, `EWGradient` whole columns before `midCell`, and nothing else; no name gives a height other than 0, 0.1 or 1 |
| ShallowWaterStart.InitialPadded | shallow_water_simulation.py:69-94 | at start every array but `H` is zero |
| ShallowWaterEdges.BoundaryIdempotent | shallow_water_simulation.py:100-110 | the boundary block applied twice is the block applied once |
| ShallowWaterEdges.BoundaryFrame | shallow_water_simulation.py:100-110 | the boundary block writes only `V` in rows 0 and `nrow` and `U`, `H` in columns 0 and `ncol` |
| ShallowWaterEdges.BoundaryEdges | shallow_water_simulation.py:100-110 | after the boundary block rows 0 and `nrow` of `V` are zero; with wrap column `ncol` of `U` and `H` equals column 0; without wrap columns 0 and `ncol` of `U` are zero and `H` is untouched |
| ShallowWaterEdges.BoundaryPadded | shallow_water_simulation.py:100-110 | the boundary block writes nothing outside the arrays' extents |
| ShallowWaterSweep.ReachedStart | shallow_water_simulation.py:114-115 | the sweep starts at position `(0, 0)` with the grid it was given; a defining equation of the model, unfolded as loop bookkeeping for `Simulation.Sweep` |
| ShallowWaterSweep.ReachedNext | shallow_water_simulation.py:115-147 | the loop body at `(r, c)` moves the sweep one row down; a defining equation of the model, unfolded as loop bookkeeping for `Simulation.Advance` |
| ShallowWaterSweep.ReachedColumn | shallow_water_simulation.py:114-115 | after the last row of column `c` comes the first row of column `c + 1`; a defining equation of the model, unfolded as loop bookkeeping for `Simulation.NextColumn` |
| ShallowWaterSweep.ReachedEnd | shallow_water_simulation.py:114 | position `(ncol, 0)` is the end of the sweep; a defining equation of the model, unfolded as loop bookkeeping for `Simulation.Sweep` |
| ShallowWaterSweep.SweptTimesStart | shallow_water_simulation.py:113 | before the `it` loop no sweep has been made; a defining equation of the model, unfolded as loop bookkeeping for `Simulation.SweepRepeatedly` |
| ShallowWaterSweep.SweptTimesNext | shallow_water_simulation.py:113 | each turn of the `it` loop adds one sweep; a defining equation of the model, unfolded as loop bookkeeping for `Simulation.NextSweep` |
| ShallowWaterSweep.AnimatedBy | shallow_water_simulation.py:96-147 | the boundary block followed by `ntAnim` sweeps is one call of animStep; a defining equation of the model, unfolded as loop bookkeeping for `Simulation.AnimStep` |
| ShallowWaterSweep.RanStart | shallow_water_simulation.py:228 | before the driver loop no call has been made; a defining equation of the model, unfolded as loop bookkeeping for `Simulation.Slices` |
| ShallowWaterSweep.RanNext | shallow_water_simulation.py:228-229 | each turn of the driver loop adds one call; a defining equation of the model, unfolded as loop bookkeeping for `Simulation.NextSlice` |
| ShallowWaterSweep.SweepStep | shallow_water_simulation.py:115-147 | one loop body writes only its own cell; a defining equation of the model, unfolded as loop bookkeeping for `Simulation.StepCell` |
| ShallowWaterSweep.SweepFrame | shallow_water_simulation.py:113-147 | a cell keeps its old value until the sweep reaches it, and a cell outside the `nrow` by `ncol` block is never written |
| ShallowWaterSweep.SweepSettled | shallow_water_simulation.py:113-147 | once the sweep has passed a cell it never writes that cell again |
| ShallowWaterSweep.SweepCell | shallow_water_simulation.py:116-147 | after a sweep, cell `(r, c)` holds what the loop body made of the grid it found there |
| ShallowWaterSweep.SweepSeen | shallow_water_simulation.py:113-147 | a cell the sweep has already passed holds its final value |
| ShallowWaterProps.SweepDerivativesX | shallow_water_simulation.py:117-118 | `dHdX` uses the new west `H` (the old `H[r, ncol]` in column 0), `dUdX` the old `U` |
| ShallowWaterProps.SweepDerivativesY | shallow_water_simulation.py:121-122 | `dHdY` uses the new north `H` (the old row `nrow - 1` in row 0), `dVdY` the old `V` |
| ShallowWaterProps.SweepRotationDirect | shallow_water_simulation.py:135-137 | in direct mode the rotational terms are the old velocities times the row's coefficient, and `tempU`, `tempV` are untouched |
| ShallowWaterProps.SweepRotationInterpolatedU | shallow_water_simulation.py:125-131 | in interpolated mode `tempU` is the mean of the two old `U` times the coefficient, and `rotU` averages it with the new `tempU` above, or in row 0 the old last row |
| ShallowWaterProps.SweepRotationInterpolatedV | shallow_water_simulation.py:125-133 | in interpolated mode `tempV` is the mean of the two old `V` times the coefficient, and `rotV` averages it with the new `tempV` to the left, or in column 0 the old last column |
| ShallowWaterProps.SweepTendencies | shallow_water_simulation.py:139-142 | the time derivatives combine the cell's new derivatives and rotational terms, its old velocities and the row's wind |
| ShallowWaterProps.SweepAdvance | shallow_water_simulation.py:144-147 | `U`, `V` and `H` each move by their new time derivative times `dT` |
| ShallowWaterEdges.SweepExterior | shallow_water_simulation.py:113-147 | a sweep leaves every entry outside the `nrow` by `ncol` block as it was |
| ShallowWaterEdges.SweepsExterior | shallow_water_simulation.py:113-147 | so does any number of sweeps |
| ShallowWaterEdges.AnimStepEdges | shallow_water_simulation.py:96-147 | after a call, row `nrow` of `V` is zero; with wrap, column `ncol` of `U` and `H` holds column 0 from before the call; without wrap, column `ncol` of `U` is zero |
| ShallowWaterEdges.SweepsPadded | shallow_water_simulation.py:113-147 | sweeps write nothing outside the arrays' extents |
| ShallowWaterEdges.RunPadded | shallow_water_simulation.py:228-229 | neither do any number of calls of animStep |
| ShallowWaterEdges.WrapSeamFlat | shallow_water_simulation.py:104-117 | with wrap, the first sweep after the boundary block computes `dHdX == 0` in column 0 |
| ShallowWaterEdges.AnimStepSeamFlat | shallow_water_simulation.py:96-149 | with wrap and one sweep per call, every call leaves `dHdX` zero in column 0 |
| ShallowWaterEdges.GradientStartEdge | shallow_water_simulation.py:88-110 | from `NSGradient`, the boundary block leaves cell `(0, 0)` with only `H = 0.1` |
| ShallowWaterEdges.NorthRowRewritten | shallow_water_simulation.py:100-147 | row 0 of `V`, zeroed by the boundary block, is written by the sweep: from `NSGradient` the first call leaves `V[0, 0] = -5.88e-6` |
| ShallowWaterStart.AtRestCellStep | shallow_water_simulation.py:116-147 | without wind, the loop body leaves an all-zero grid all zero |
| ShallowWaterStart.AtRestSweepUpTo | shallow_water_simulation.py:113-147 | so does every stretch of a sweep |
| ShallowWaterStart.AtRestSweeps | shallow_water_simulation.py:113-147 | so do any number of sweeps |
| ShallowWaterStart.AtRestRun | shallow_water_simulation.py:96-149 | without wind, the all-zero grid is a fixed point of animStep and of the driver loop |
| ShallowWaterStart.UnperturbedAtRest | shallow_water_simulation.py:69-229 | with `NoPerturbation` the start-up grid is the ocean at rest, and without wind every number of calls of the driver loop leaves it so |
| IceSheetModel.Start | ice_sheet_simulation.py:24-25 | the two `np.zeros` arrays have `nX + 2` and `nX + 1` entries |
| IceSheetModel.Flux | ice_sheet_simulation.py:33-34 | definition of the flow across one gap: the surface gradient times `flowParam` times the mean elevation, over `dX` |
| IceSheetModel.FlowsUpTo | ice_sheet_simulation.py:32-34 | definition of the first `k` entries of the flow pass; its contract gives their number |
| IceSheetModel.Flows | ice_sheet_simulation.py:32-34 | definition of the whole flow pass, one flux per gap, `nX + 1` entries |
| IceSheetModel.Accumulated | ice_sheet_simulation.py:37 | definition of one point's new elevation: snow plus inflow minus outflow, times `timeStep` |
| IceSheetModel.ElevationAt | ice_sheet_simulation.py:36-37 | definition of point `ix` after the elevation pass: `Accumulated` for `1 <= ix <= nX`, unchanged at the two edges |
| IceSheetModel.ElevatedUpTo | ice_sheet_simulation.py:36-37 | definition of the first `k` points after the elevation pass; its contract gives their number |
| IceSheetModel.Elevated | ice_sheet_simulation.py:36-37 | definition of the whole elevation pass, `nX + 2` points |
| IceSheetModel.Step | ice_sheet_simulation.py:31-37 | definition of one turn of the time loop: the flow pass on the current elevations, then the elevation pass with those flows |
| IceSheetModel.Run | ice_sheet_simulation.py:31-37 | definition of `n` turns of the time loop, one `Step` after another |
| IceSheetProps.StepCount | ice_sheet_simulation.py:14-20 | `nSteps` is 200, and 200 steps of `timeStep` years cover `nYears` exactly |
| IceSheetProps.FluxSquares | ice_sheet_simulation.py:33-34 | the flux is the difference of the squared elevations times `flowParam / (2 dX^2)` |
| IceSheetProps.FluxAntisymmetric | ice_sheet_simulation.py:33-34 | swapping two neighbours reverses the flux between them |
| IceSheetProps.FluxDownhill | ice_sheet_simulation.py:33-34 | for positive total thickness the flux is positive exactly when the left point is higher, and zero exactly when the two are level |
| IceSheetProps.FlowsUpToAt | ice_sheet_simulation.py:32-34 | every entry the flow pass has written so far is the flux across its gap |
| IceSheetProps.FlowsAt | ice_sheet_simulation.py:32-34 | `flows[ix]` is computed from the elevations at `ix` and `ix + 1` as they were before the step |
| IceSheetProps.FlowsFlat | ice_sheet_simulation.py:33-34 | equal neighbours give zero flow |
| IceSheetProps.EdgeFlowsOutward | ice_sheet_simulation.py:32-34 | with both edges at zero, `flows[0] <= 0` and `flows[nX] >= 0`, each strict exactly when the adjacent interior point is non-zero |
| IceSheetProps.ElevatedUpToAt | ice_sheet_simulation.py:36-37 | every point the elevation pass has reached holds its new value |
| IceSheetProps.ElevatedAt | ice_sheet_simulation.py:36-37 | an interior point gains `(snowFall + flows[ix-1] - flows[ix]) * timeStep`; the two edge points are unchanged |
| IceSheetProps.ElevatedPrefix | ice_sheet_simulation.py:36-37 | the first `k` interior points together gain `k` steps of snow plus `flows[0] - flows[k]` |
| IceSheetProps.ElevatedVolume | ice_sheet_simulation.py:36-37 | one elevation pass changes the interior total by `(nX * snowFall + flows[0] - flows[nX]) * timeStep` |
| IceSheetProps.ElevatedEdges | ice_sheet_simulation.py:36 | the elevation pass leaves `elevations[0]` and `elevations[nX+1]` alone |
| IceSheetProps.RunEdges | ice_sheet_simulation.py:31-37 | after any number of steps the edge points hold their initial values |
| IceSheetProps.StepVolumeBound | ice_sheet_simulation.py:31-37 | with zero edges, one step adds at most `nX * snowFall * timeStep` to the interior total |
| IceSheetProps.RunVolumeBound | ice_sheet_simulation.py:31-37 | with zero edges, `n` steps add at most `n` times that |
| IceSheetProps.StartVolumeBound | ice_sheet_simulation.py:24-37 | from bare ground, after `n` steps the interior holds at most `n * nX * snowFall * timeStep` |
| IceSheetProps.FirstStep | ice_sheet_simulation.py:24-37 | the first step from bare ground has no flow anywhere and raises every interior point to `snowFall * timeStep` |
| IceSheetProps.FlowsMirrored | ice_sheet_simulation.py:32-34 | a mirror-symmetric sheet has mirrored flows of opposite sign |
| IceSheetProps.StepMirrored | ice_sheet_simulation.py:31-37 | a step keeps a mirror-symmetric sheet symmetric |
| IceSheetProps.RunMirrored | ice_sheet_simulation.py:31-37 | any number of steps keep it symmetric |
| IceSheetProps.StartMirrored | ice_sheet_simulation.py:24-37 | the sheet grown from bare ground is symmetric after any number of steps |
| IceSheet.Sheet.constructor | ice_sheet_simulation.py:24-25 | two fresh arrays, all zero, holding `Start()` |
| IceSheet.Sheet.FlowPass | ice_sheet_simulation.py:32-34 | the in-place flow loop leaves `flows` holding `Flows` of the current elevations |
| IceSheet.Sheet.ElevationPass | ice_sheet_simulation.py:36-37 | the in-place elevation loop leaves `elevations` holding `Elevated` of the old elevations and the new flows |
| IceSheet.Sheet.Advance | ice_sheet_simulation.py:31-37 | one turn of the time loop is one model `Step` |
| IceSheet.Sheet.Simulate | ice_sheet_simulation.py:31-37 | `range(0, nYears, timeStep)` makes `nSteps` turns, leaving `Run` of the state for `nSteps` steps |
| IceSheet.RunScript | ice_sheet_simulation.py:11-37 | the script ends with the 200-step run from bare ground: bare edges, at most 200 steps of snow, symmetric |

## Left out

- Plotting and text output are not modelled: `firstFrame`, `plotArrows`, `updateFrame`, `textDump`, the `textOutput`/`plotOutput` switches, `arrowScale` and `plotLimit`, and the per-step print and plot in the ice-sheet loop. They only read the arrays.
- `math.sin` and `math.radians` are taken as function parameters `sin` and `radians` with no properties. The `WithLatitude` and `Curled` profiles are therefore stated only in terms of them.
- Floating point is modelled as exact real arithmetic. Rounding, overflow and NaN are absent, as are the scheme's numerical stability and growth.
- The scripts compare setting names with `is` against string literals. The model assumes a recognised name selects its scheme and any other name falls through to the last branch, so each setting is an enumeration whose last constructor is the fall-through.
- The shallow-water settings are a `Config` parameter, with the shipped values in `ScriptConfig`. A grid without rows or columns is excluded, and so is a `Tower` whose cell `H[midCell, midCell]` does not exist, where the script would fail with an index error.
- The ice-sheet constants are fixed as in the script. The model does not generalise them.
- `global stepDump` in `animStep` names a variable that is never used.
- earth_climate.py is not part of this model.
- albedo_hysteresis_loop.py is not part of this model.
- time_dependent_planet_simulation.py is not part of this model.
- The value-level `Grid` gives every array an entry at every one of the `(nrow + 1) * (ncol + 1)` grid points. Entries beyond an array's extent stand for nothing and are proved to stay zero (`Padded`).
- `ShallowWater.Simulation.StepCell` first reads the eleven entries of the cell's stencil, then computes the cell, then writes its fourteen entries. The script interleaves these reads and writes. They agree because the script writes only entry `[irow, icol]` of each array and reads every entry it has just written only through the same computation. The one entry read after being written is `tempU[irow-1, icol]` (`tempV[irow, icol-1]`) on a grid of one row (column), which is the cell itself. That case is modelled explicitly.

## Update order and edges

These facts about the script follow from the order in which it reads and writes its arrays. Each has a lemma.

- The sweep updates the arrays in place, so a cell reads the new values of the neighbours already swept and the old values of the rest. It is a Gauss-Seidel sweep (`ShallowWaterProps.SweepDerivativesX` and its companions).
- With wrap, the boundary block copies column 0 of `U` and `H` into column `ncol` before the sweeps (`ShallowWaterEdges.BoundaryEdges`). The sweeps never write column `ncol`, so after a call it holds column 0 as it was before the call, not column 0's new value (`ShallowWaterEdges.AnimStepEdges`).
- Because of that copy, the east-west height gradient of column 0 is zero in the sweep that follows it (`ShallowWaterEdges.WrapSeamFlat`).
- Row 0 of `V` is zeroed by the boundary block and then written by the sweep, so it need not be zero after a call (`ShallowWaterEdges.NorthRowRewritten` gives a start where it is not). Column 0 of `U` is likewise zeroed without wrap and then written by the sweep, since it is an interior column, so it need not be zero either (`ShallowWaterProps.SweepAdvance`). Row `nrow` of `V`, and without wrap column `ncol` of `U`, are the only edge entries guaranteed zero after a call (`ShallowWaterEdges.AnimStepEdges`).
