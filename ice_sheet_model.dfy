/** The one-dimensional ice sheet of ice_sheet_simulation.py as values: the
    script's constants, the flux between two neighbouring columns of ice, the
    flow pass, the elevation pass, and the time loop as repeated steps. */
module IceSheetModel {

  /** Number of interior grid points. */
  const nX: nat := 10
  /** Width of the domain in metres. */
  const domainWidth: real := 1000000.0
  /** Years per step. */
  const timeStep: nat := 100
  /** Years simulated. */
  const nYears: nat := 20000
  /** Horizontal flow parameter, metres per year. */
  const flowParam: real := 10000.0
  /** Snow accumulation, metres per year. */
  const snowFall: real := 1.0
  /** Grid spacing `domainWidth / nX`, in metres. */
  const dX: real := domainWidth / nX as real
  /** `int(nYears / timeStep)`: the iterations of `range(0, nYears, timeStep)`. */
  const nSteps: nat := nYears / timeStep

  /** The arrays: `elevations` has `nX + 2` entries (two fixed edges), `flows`
      has `nX + 1`, one per gap between neighbouring points. */
  datatype Ice = Ice(elevations: seq<real>, flows: seq<real>)

  ghost predicate WellSized(s: Ice) {
    |s.elevations| == nX + 2 && |s.flows| == nX + 1
  }

  /** `n` zeros: `np.zeros(n)`. */
  function Zeros(n: nat): (z: seq<real>)
    ensures |z| == n && forall i :: 0 <= i < n ==> z[i] == 0.0
  {
    seq(n, i => 0.0)
  }

  /** The state after the two `np.zeros` calls (ice_sheet_simulation.py:24-25). */
  function Start(): (s: Ice)
    ensures WellSized(s)
  {
    Ice(Zeros(nX + 2), Zeros(nX + 1))
  }

  /** The flow from a point of elevation `a` to its right-hand neighbour of
      elevation `b`: the surface gradient times `flowParam` times the mean
      thickness, over `dX`. */
  function Flux(a: real, b: real): real {
    var surfaceGradient := (a - b) / dX;
    surfaceGradient * flowParam * (a + b) / 2.0 / dX
  }

  /** The first `k` entries the flow pass (lines 32-34) writes, in the order
      it writes them: entry `ix` is the flux across the gap between points
      `ix` and `ix + 1`. */
  function FlowsUpTo(e: seq<real>, k: nat): (f: seq<real>)
    requires |e| == nX + 2 && k <= nX + 1
    ensures |f| == k
    decreases k
  {
    if k == 0 then [] else FlowsUpTo(e, k - 1) + [Flux(e[k - 1], e[k])]
  }

  /** The whole flow pass: one flux per gap. */
  function Flows(e: seq<real>): (f: seq<real>)
    requires |e| == nX + 2
    ensures |f| == nX + 1
  {
    FlowsUpTo(e, nX + 1)
  }

  /** Snow plus the flow in from the left minus the flow out to the right,
      over one time step, added to an elevation. */
  function Accumulated(e: real, inflow: real, outflow: real): real {
    e + (snowFall + inflow - outflow) * timeStep as real
  }

  /** What the elevation pass (lines 36-37) leaves at point `ix`: interior
      points `1..nX` move by their net flow, the two edge points are not
      written. */
  function ElevationAt(e: seq<real>, f: seq<real>, ix: nat): real
    requires |e| == nX + 2 && |f| == nX + 1 && ix < nX + 2
  {
    if 1 <= ix <= nX then Accumulated(e[ix], f[ix - 1], f[ix]) else e[ix]
  }

  /** The first `k` points after the elevation pass. */
  function ElevatedUpTo(e: seq<real>, f: seq<real>, k: nat): (e': seq<real>)
    requires |e| == nX + 2 && |f| == nX + 1 && k <= nX + 2
    ensures |e'| == k
    decreases k
  {
    if k == 0 then [] else ElevatedUpTo(e, f, k - 1) + [ElevationAt(e, f, k - 1)]
  }

  /** The whole elevation pass. */
  function Elevated(e: seq<real>, f: seq<real>): (e': seq<real>)
    requires |e| == nX + 2 && |f| == nX + 1
    ensures |e'| == nX + 2
  {
    ElevatedUpTo(e, f, nX + 2)
  }

  /** One turn of the time loop: the flow pass on the elevations as they stand,
      then the elevation pass with those flows. */
  function Step(s: Ice): (s': Ice)
    requires WellSized(s)
    ensures WellSized(s')
  {
    var f := Flows(s.elevations);
    Ice(Elevated(s.elevations, f), f)
  }

  /** `n` turns of the time loop: one step, then the remaining `n - 1`. */
  function Run(s: Ice, n: nat): (s': Ice)
    requires WellSized(s)
    ensures WellSized(s')
    decreases n
  {
    if n == 0 then s else Run(Step(s), n - 1)
  }

  /** The sum of a sequence of reals. */
  function Sum(s: seq<real>): real {
    if |s| == 0 then 0.0 else Sum(s[..|s| - 1]) + s[|s| - 1]
  }

  /** The ice held by the interior points `1..nX`. */
  function Volume(e: seq<real>): real
    requires |e| == nX + 2
  {
    Sum(e[1..nX + 1])
  }
}
