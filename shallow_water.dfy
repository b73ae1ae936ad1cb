/** The shallow-water script as it runs: fourteen two-dimensional arrays
    updated in place by animStep, each step proved to produce the grid that
    ShallowWaterModel describes. */
module ShallowWater {
  import opened Matrix
  import opened ShallowWaterModel
  import opened ShallowWaterLayout
  import opened ShallowWaterSweep

  /** The start-up loop that appends one entry per row to the tables
      (shallow_water_simulation.py:46-65). */
  method BuildProfiles(cfg: Config, sin: real -> real, radians: real -> real) returns (prof: Profiles)
    requires cfg.nrow >= 1
    ensures prof == ProfilesOf(cfg, sin, radians)
  {
    var latitude: seq<real>, rotConst: seq<real>, windU: seq<real> := [], [], [];
    var irow := 0;
    while irow < cfg.nrow
      invariant irow <= cfg.nrow && |rotConst| == |windU| == irow
      invariant |latitude| == if cfg.rotationScheme == WithLatitude then irow else 0
      invariant forall i :: 0 <= i < |latitude| ==> latitude[i] == Latitude(cfg, i)
      invariant forall i :: 0 <= i < irow ==> rotConst[i] == RotationCoefficient(cfg, sin, radians, i)
      invariant forall i :: 0 <= i < irow ==> windU[i] == WindCoefficient(cfg, sin, i)
    {
      var rot, wind;
      if cfg.rotationScheme == WithLatitude {
        latitude := latitude + [meanLatitude + (irow as real - cfg.nrow as real / 2.0) * dxDegrees];
        rot := -7.0e-5 * sin(radians(latitude[|latitude| - 1]));
      } else if cfg.rotationScheme == PlusMinus {
        rot := -3.5e-5 * (1.0 - 0.8 * (irow as real - (cfg.nrow as real - 1.0) / 2.0) / cfg.nrow as real);
      } else if cfg.rotationScheme == UniformRotation {
        rot := -3.5e-5;
      } else {
        rot := 0.0;
      }
      if cfg.windScheme == Curled {
        wind := 1.0e-8 * sin((irow as real + 0.5) / cfg.nrow as real * 2.0 * 3.14);
      } else if cfg.windScheme == UniformWind {
        wind := 1.0e-8;
      } else {
        wind := 0.0;
      }
      assert rot == RotationCoefficient(cfg, sin, radians, irow);
      rotConst := rotConst + [rot];
      windU := windU + [wind];
      irow := irow + 1;
    }
    prof := Profiles(latitude, rotConst, windU);
  }

  /** The script's module-level state. */
  class Simulation {
    const cfg: Config
    const prof: Profiles
    // nrow by ncol + 1
    const U: array2<real>
    // nrow + 1 by ncol
    const V: array2<real>
    // nrow by ncol + 1
    const H: array2<real>
    // nrow by ncol, except dHdX, which is nrow by ncol + 1
    const dUdT: array2<real>
    const dVdT: array2<real>
    const dHdT: array2<real>
    const dHdX: array2<real>
    const dHdY: array2<real>
    const dUdX: array2<real>
    const dVdY: array2<real>
    const rotV: array2<real>
    const rotU: array2<real>
    const tempU: array2<real>
    const tempV: array2<real>
    /** Sweeps made so far. */
    var itGlobal: nat

    /** The settings are valid, the tables fit them, and the arrays have the
        script's extents and are fourteen different arrays; false otherwise. */
    ghost predicate Valid() {
      if ValidConfig(cfg) && Fits(cfg, prof) then Layout(cfg.nrow, cfg.ncol, U, V, H, dUdT, dVdT, dHdT, dHdX, dHdY, dUdX, dVdY, rotV, rotU, tempU, tempV)
      else false
    }

    /** The start-up code: the tables (lines 46-65), `itGlobal = 0`, the
        fourteen zero arrays (lines 69-86) and the initial perturbation
        (lines 88-94). */
    constructor (cfg: Config, sin: real -> real, radians: real -> real)
      requires ValidConfig(cfg)
      ensures Valid() && this.cfg == cfg && prof == ProfilesOf(cfg, sin, radians)
      ensures State() == Initial(cfg) && itGlobal == 0
      ensures fresh(U) && fresh(V) && fresh(H) && fresh(dUdT) && fresh(dVdT) && fresh(dHdT) && fresh(dHdX)
      ensures fresh(dHdY) && fresh(dUdX) && fresh(dVdY) && fresh(rotV) && fresh(rotU) && fresh(tempU) && fresh(tempV)
    {
      var aU, aV, aH, adUdT, adVdT, adHdT, adHdX, adHdY, adUdX, adVdY, arotV, arotU, atempU, atempV := Allocate(cfg.nrow, cfg.ncol);
      this.cfg := cfg;
      var p := BuildProfiles(cfg, sin, radians);
      prof := p;
      itGlobal := 0;
      U, V, H := aU, aV, aH;
      dUdT, dVdT, dHdT := adUdT, adVdT, adHdT;
      dHdX, dHdY, dUdX, dVdY := adHdX, adHdY, adUdX, adVdY;
      rotV, rotU, tempU, tempV := arotV, arotU, atempU, atempV;
      new;
      Perturb();
      AssembleInitial(cfg, Arrays());
    }

    /** The initial perturbation of `H` (lines 88-94). */
    method Perturb()
      requires Valid()
      modifies H
      ensures Contents(H) == Perturbed(cfg, old(Contents(H)))
    {
      var midCell := cfg.ncol / 2;
      if cfg.initialPerturbation == Tower {
        Put(H, midCell, midCell, 1.0);
      } else if cfg.initialPerturbation == NSGradient {
        Fill(H, 0, midCell, 0, cfg.ncol + 1, 0.1);
      } else if cfg.initialPerturbation == EWGradient {
        Fill(H, 0, cfg.nrow, 0, midCell, 0.1);
      }
    }

    /** The contents of the fourteen arrays. */
    ghost function Arrays(): (f: Fields)
      requires Valid()
      reads U, V, H, dUdT, dVdT, dHdT, dHdX, dHdY, dUdX, dVdY, rotV, rotU, tempU, tempV
      ensures Shaped(cfg, f)
    {
      Fields(Contents(U), Contents(V), Contents(H), Contents(dUdT), Contents(dVdT), Contents(dHdT), Contents(dHdX), Contents(dHdY), Contents(dUdX), Contents(dVdY), Contents(rotV), Contents(rotU), Contents(tempU), Contents(tempV))
    }

    /** The arrays as one grid. */
    ghost function State(): (g: Grid)
      requires Valid()
      reads U, V, H, dUdT, dVdT, dHdT, dHdX, dHdY, dUdX, dVdY, rotV, rotU, tempU, tempV
      ensures WellShaped(cfg, g) && Padded(cfg, g)
    {
      Assemble(cfg, Arrays())
    }

    /** Entry `[r, c]` of every array set to the matching field of `e`. */
    method WriteCell(r: nat, c: nat, e: Cell)
      requires Valid() && Interior(cfg, r, c)
      modifies U, V, H, dUdT, dVdT, dHdT, dHdX, dHdY, dUdX, dVdY, rotV, rotU, tempU, tempV
      ensures Arrays() == SetAll(cfg, old(Arrays()), r, c, e)
    {
      Put(U, r, c, e.U);
      Put(V, r, c, e.V);
      Put(H, r, c, e.H);
      Put(dUdT, r, c, e.dUdT);
      Put(dVdT, r, c, e.dVdT);
      Put(dHdT, r, c, e.dHdT);
      Put(dHdX, r, c, e.dHdX);
      Put(dHdY, r, c, e.dHdY);
      Put(dUdX, r, c, e.dUdX);
      Put(dVdY, r, c, e.dVdY);
      Put(rotV, r, c, e.rotV);
      Put(rotU, r, c, e.rotU);
      Put(tempU, r, c, e.tempU);
      Put(tempV, r, c, e.tempV);
    }

    /** The eleven values the loop body reads for cell `(r, c)`. */
    method ReadStencil(r: nat, c: nat) returns (st: Stencil)
      requires Valid() && Interior(cfg, r, c)
      ensures st == StencilOf(cfg, Arrays(), r, c)
    {
      var pr, pc := Prev(r, cfg.nrow), Prev(c, cfg.ncol);
      st := Stencil(U[r, c], U[r, c + 1], V[r, c], V[r + 1, c],
                    H[r, c], H[r, Prev(c, cfg.ncol + 1)], H[pr, c],
                    tempU[r, c], tempU[pr, c], tempV[r, c], tempV[r, pc]);
    }

    /** The body of the innermost loop of animStep, for cell `(r, c)`: read
        the stencil, compute the cell, write it back. */
    method StepCell(r: nat, c: nat)
      requires Valid() && Interior(cfg, r, c)
      modifies U, V, H, dUdT, dVdT, dHdT, dHdX, dHdY, dUdX, dVdY, rotV, rotU, tempU, tempV
      ensures Stepped(cfg, prof, old(State()), r, c, State())
    {
      ghost var f := Arrays();
      var st := ReadStencil(r, c);
      var e := Combine(cfg.interpolateRotation, prof.rotConst[r], prof.windU[r], st, Prev(r, cfg.nrow) == r, Prev(c, cfg.ncol) == c);
      StepFields(cfg, prof, f, r, c);
      WriteCell(r, c, e);
    }

    /** The boundary block of animStep (lines 100-110). */
    method BoundaryConditions()
      requires Valid()
      modifies U, V, H
      ensures State() == Boundary(cfg, old(State()))
    {
      ghost var f := Arrays();
      ApplyBoundary(cfg, U, V, H);
      AssembleBoundary(cfg, f, Arrays());
    }

    /** The arrays hold the sweep of `g` up to, not including, cell `(r, c)`. */
    ghost predicate At(g: Grid, c: nat, r: nat)
      reads U, V, H, dUdT, dVdT, dHdT, dHdX, dHdY, dUdX, dVdY, rotV, rotU, tempU, tempV
    {
      if Valid() then Reached(cfg, prof, g, c, r, State()) else false
    }

    /** The loop body at cell `(r, c)`, as a step of the sweep of `g`. */
    method Advance(ghost g: Grid, c: nat, r: nat)
      requires Valid() && Interior(cfg, r, c) && At(g, c, r)
      modifies U, V, H, dUdT, dVdT, dHdT, dHdX, dHdY, dUdX, dVdY, rotV, rotU, tempU, tempV
      ensures At(g, c, r + 1)
    {
      ghost var s := State();
      StepCell(r, c);
      ReachedNext(cfg, prof, g, c, r, s, State());
    }

    /** The end of column `c`: the sweep moves on to the top of the next one. */
    lemma NextColumn(g: Grid, c: nat)
      requires Valid() && c < cfg.ncol && At(g, c, cfg.nrow)
      ensures At(g, c + 1, 0)
    {
      ReachedColumn(cfg, prof, g, c, State());
    }

    /** One pass of the `irow` loop: column `c` of the sweep of `g`. */
    method SweepColumn(ghost g: Grid, c: nat)
      requires Valid() && c < cfg.ncol && At(g, c, 0)
      modifies U, V, H, dUdT, dVdT, dHdT, dHdX, dHdY, dUdX, dVdY, rotV, rotU, tempU, tempV
      ensures At(g, c + 1, 0)
    {
      var irow := 0;
      while irow < cfg.nrow
        invariant irow <= cfg.nrow && At(g, c, irow)
      {
        Advance(g, c, irow);
        irow := irow + 1;
      }
      NextColumn(g, c);
    }

    /** One sweep: `icol` outer, `irow` inner (lines 113-147). */
    method Sweep()
      requires Valid()
      modifies U, V, H, dUdT, dVdT, dHdT, dHdX, dHdY, dUdX, dVdY, rotV, rotU, tempU, tempV
      ensures Swept(cfg, prof, old(State()), State())
    {
      ghost var g := State();
      ReachedStart(cfg, prof, g);
      var icol := 0;
      while icol < cfg.ncol
        invariant icol <= cfg.ncol && At(g, icol, 0)
      {
        SweepColumn(g, icol);
        icol := icol + 1;
      }
      ReachedEnd(cfg, prof, g, State());
    }

    /** The arrays hold `n` sweeps of `b`. */
    ghost predicate Repeated(b: Grid, n: nat)
      reads U, V, H, dUdT, dVdT, dHdT, dHdX, dHdY, dUdX, dVdY, rotV, rotU, tempU, tempV
    {
      if Valid() then SweptTimes(cfg, prof, b, n, State()) else false
    }

    /** One turn of the `it` loop of animStep, after `n` sweeps of `b`. */
    method NextSweep(ghost b: Grid, ghost n: nat)
      requires Valid() && Repeated(b, n)
      modifies U, V, H, dUdT, dVdT, dHdT, dHdX, dHdY, dUdX, dVdY, rotV, rotU, tempU, tempV
      ensures Repeated(b, n + 1)
    {
      ghost var s := State();
      Sweep();
      SweptTimesNext(cfg, prof, b, n, s, State());
    }

    /** The `it` loop of animStep: `ntAnim` sweeps (lines 113-147). */
    method SweepRepeatedly()
      requires Valid()
      modifies U, V, H, dUdT, dVdT, dHdT, dHdX, dHdY, dUdX, dVdY, rotV, rotU, tempU, tempV
      ensures SweptTimes(cfg, prof, old(State()), cfg.ntAnim, State())
    {
      ghost var b := State();
      SweptTimesStart(cfg, prof, b);
      var it := 0;
      while it < cfg.ntAnim
        invariant it <= cfg.ntAnim && Repeated(b, it)
      {
        NextSweep(b, it);
        it := it + 1;
      }
    }

    /** animStep: the boundary block, `ntAnim` sweeps, and the sweep count
        (lines 96-149). */
    method AnimStep()
      requires Valid()
      modifies this, U, V, H, dUdT, dVdT, dHdT, dHdX, dHdY, dUdX, dVdY, rotV, rotU, tempU, tempV
      ensures Animated(cfg, prof, old(State()), State())
      ensures itGlobal == old(itGlobal) + cfg.ntAnim
    {
      ghost var g := State();
      BoundaryConditions();
      SweepRepeatedly();
      AnimatedBy(cfg, prof, g, State());
      itGlobal := itGlobal + cfg.ntAnim;
    }

    /** The arrays hold `n` calls of animStep on `g`. */
    ghost predicate Driven(g: Grid, n: nat)
      reads U, V, H, dUdT, dVdT, dHdT, dHdX, dHdY, dUdX, dVdY, rotV, rotU, tempU, tempV
    {
      if Valid() then Ran(cfg, prof, g, n, State()) else false
    }

    /** One turn of the driver loop, after `n` calls of animStep on `g`. */
    method NextSlice(ghost g: Grid, ghost n: nat)
      requires Valid() && Driven(g, n)
      modifies this, U, V, H, dUdT, dVdT, dHdT, dHdX, dHdY, dUdX, dVdY, rotV, rotU, tempU, tempV
      ensures Driven(g, n + 1)
      ensures itGlobal == old(itGlobal) + cfg.ntAnim
    {
      ghost var s := State();
      AnimStep();
      RanNext(cfg, prof, g, n, s, State());
    }

    /** The driver loop on `g`: `n` calls of animStep (lines 228-229). */
    method Slices(ghost g: Grid, n: nat)
      requires Valid() && Driven(g, 0)
      modifies this, U, V, H, dUdT, dVdT, dHdT, dHdX, dHdY, dUdX, dVdY, rotV, rotU, tempU, tempV
      ensures Driven(g, n)
      ensures itGlobal == old(itGlobal) + n * cfg.ntAnim
    {
      var i := 0;
      while i < n
        invariant i <= n && Driven(g, i)
        invariant itGlobal == old(itGlobal) + i * cfg.ntAnim
      {
        assert (i + 1) * cfg.ntAnim == i * cfg.ntAnim + cfg.ntAnim;
        NextSlice(g, i);
        i := i + 1;
      }
    }

    /** The driver loop from the current arrays: `n` calls of animStep. */
    method Simulate(n: nat)
      requires Valid()
      modifies this, U, V, H, dUdT, dVdT, dHdT, dHdX, dHdY, dUdX, dVdY, rotV, rotU, tempU, tempV
      ensures Ran(cfg, prof, old(State()), n, State())
      ensures itGlobal == old(itGlobal) + n * cfg.ntAnim
    {
      ghost var g := State();
      RanStart(cfg, prof, g);
      Slices(g, n);
    }
  }

  /** The script as it stands: its settings, the start-up code, and the
      driver loop's `nSlices` calls of animStep. */
  method RunScript(sin: real -> real, radians: real -> real) returns (sim: Simulation)
    ensures sim.Valid() && sim.cfg == ScriptConfig && sim.prof == ProfilesOf(ScriptConfig, sin, radians)
    ensures Ran(ScriptConfig, sim.prof, Initial(ScriptConfig), ScriptSlices, sim.State())
    ensures sim.itGlobal == ScriptSlices * ScriptConfig.ntAnim
  {
    sim := new Simulation(ScriptConfig, sin, radians);
    sim.Simulate(ScriptSlices);
  }
}
