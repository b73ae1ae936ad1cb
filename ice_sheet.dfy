/** The script ice_sheet_simulation.py as it runs: two arrays updated in place
    by a flow pass and an elevation pass, once per time step, proved to follow
    the functions of IceSheetModel. */
module IceSheet {
  import opened IceSheetModel
  import opened IceSheetProps

  /** The script's two global arrays. */
  class Sheet {
    const elevations: array<real>
    const flows: array<real>

    /** The arrays have the sizes the script allocates; since the sizes
        differ, the two arrays are distinct objects. */
    ghost predicate Valid() {
      elevations.Length == nX + 2 && flows.Length == nX + 1
    }

    /** The arrays as a value. */
    ghost function State(): (s: Ice)
      requires Valid()
      reads elevations, flows
      ensures WellSized(s)
    {
      Ice(elevations[..], flows[..])
    }

    /** `elevations = np.zeros(nX+2)` and `flows = np.zeros(nX+1)`. */
    constructor ()
      ensures Valid() && State() == Start()
      ensures fresh(elevations) && fresh(flows)
    {
      elevations := new real[nX + 2](_ => 0.0);
      flows := new real[nX + 1](_ => 0.0);
      new;
      assert elevations[..] == Zeros(nX + 2);
      assert flows[..] == Zeros(nX + 1);
    }

    /** The flow pass: `flows[ix]` for `ix` in `0..nX`, each from the two
        elevations beside gap `ix`. */
    method FlowPass()
      requires Valid()
      modifies flows
      ensures flows[..] == Flows(elevations[..])
    {
      var ix := 0;
      while ix < nX + 1
        invariant ix <= nX + 1
        invariant flows[..ix] == FlowsUpTo(elevations[..], ix)
      {
        flows[ix] := Flux(elevations[ix], elevations[ix + 1]);
        assert flows[..ix + 1] == flows[..ix] + [flows[ix]];
        ix := ix + 1;
      }
      assert flows[..] == flows[..nX + 1];
    }

    /** The elevation pass: `elevations[ix]` for `ix` in `1..nX`, each moved
        by its net flow; every point is read before it is written, so the
        pass works on the elevations as they were before it. */
    method ElevationPass()
      requires Valid()
      modifies elevations
      ensures elevations[..] == Elevated(old(elevations[..]), flows[..])
    {
      ghost var e := elevations[..];
      var ix := 1;
      assert elevations[..1] == [e[0]];
      while ix < nX + 1
        invariant 1 <= ix <= nX + 1
        invariant elevations[..ix] == ElevatedUpTo(e, flows[..], ix)
        invariant elevations[ix..] == e[ix..]
      {
        assert elevations[ix] == e[ix];
        elevations[ix] := Accumulated(elevations[ix], flows[ix - 1], flows[ix]);
        assert elevations[..ix + 1] == elevations[..ix] + [elevations[ix]];
        assert elevations[ix + 1..] == e[ix + 1..];
        ix := ix + 1;
      }
      assert elevations[..] == elevations[..nX + 1] + [elevations[nX + 1]];
    }

    /** One turn of the time loop (lines 32-37). */
    method Advance()
      requires Valid()
      modifies elevations, flows
      ensures State() == IceSheetModel.Step(old(State()))
    {
      FlowPass();
      ElevationPass();
    }

    /** The time loop `for i in range(0, nYears, timeStep)`: `nSteps` turns. */
    method Simulate()
      requires Valid()
      modifies elevations, flows
      ensures State() == Run(old(State()), nSteps)
    {
      ghost var target := Run(State(), nSteps);
      ghost var left: nat := nSteps;
      var i := 0;
      while i < nYears
        invariant i + left * timeStep == nYears
        invariant Run(State(), left) == target
      {
        assert left != 0;
        Advance();
        left := left - 1;
        i := i + timeStep;
      }
      assert left == 0;
    }
  }

  /** The whole script: allocate, then run the time loop. The resulting sheet
      is the model's run from bare ground; its edges are still bare, it holds
      at most `nSteps` steps of snow, and it is mirrored. */
  method RunScript() returns (sheet: Sheet)
    ensures sheet.Valid() && sheet.State() == Run(Start(), nSteps)
    ensures sheet.elevations[0] == 0.0 && sheet.elevations[nX + 1] == 0.0
    ensures Volume(sheet.elevations[..]) <= nSteps as real * maxGain
    ensures Mirrored(sheet.elevations[..])
  {
    sheet := new Sheet();
    sheet.Simulate();
    RunEdges(Start(), nSteps);
    StartVolumeBound(nSteps);
    StartMirrored(nSteps);
  }
}
