/** What the ice-sheet stepper does, proved about the functions of
    IceSheetModel: flat ice does not flow and ice flows downhill, the edge
    fluxes point outward, a step changes the interior volume by the snow plus
    the edge fluxes, the edges never move, a symmetric sheet stays symmetric,
    and the first step from bare ground lays down one step of snow. */
module IceSheetProps {
  import opened IceSheetModel

  // ---------------------------------------------------------------------------
  // The flux

  /** A positive factor times a square is never negative. */
  lemma ScaledSquare(x: real, k: real)
    requires k > 0.0
    ensures x * x * k >= 0.0
    ensures x != 0.0 ==> x * x * k > 0.0
  {
    assert x * x >= 0.0;
    if x != 0.0 {
      assert x * x > 0.0;
    }
  }

  /** The flux written as one product: the difference of the squares of the
      two elevations, scaled by `flowParam / (2 dX^2)`. */
  lemma FluxSquares(a: real, b: real)
    ensures Flux(a, b) == (a * a - b * b) * (flowParam / (2.0 * dX * dX))
  {
    assert dX == 100000.0;
    calc {
      Flux(a, b);
      (a - b) / dX * flowParam * (a + b) / 2.0 / dX;
      (a - b) * (a + b) * (flowParam / (2.0 * dX * dX));
    }
  }

  /** Swapping the two points reverses the flux. */
  lemma FluxAntisymmetric(a: real, b: real)
    ensures Flux(b, a) == -Flux(a, b)
  {
    FluxSquares(a, b);
    FluxSquares(b, a);
  }

  /** Where the two columns have positive total thickness, ice flows from the
      higher to the lower one, and not at all between equal ones. */
  lemma FluxDownhill(a: real, b: real)
    requires a + b > 0.0
    ensures Flux(a, b) > 0.0 <==> a > b
    ensures Flux(a, b) == 0.0 <==> a == b
  {
    FluxSquares(a, b);
    var k := flowParam / (2.0 * dX * dX);
    assert k > 0.0;
    assert a * a - b * b == (a - b) * (a + b);
    if a > b {
      assert (a - b) * (a + b) > 0.0;
    } else if a < b {
      assert (b - a) * (a + b) > 0.0;
    }
  }

  // ---------------------------------------------------------------------------
  // The two passes, entry by entry

  /** Every entry of a prefix of the flow pass is the flux across its gap. */
  lemma {:induction false} FlowsUpToAt(e: seq<real>, k: nat, ix: nat)
    requires |e| == nX + 2 && ix < k <= nX + 1
    ensures FlowsUpTo(e, k)[ix] == Flux(e[ix], e[ix + 1])
    decreases k
  {
    if ix < k - 1 {
      FlowsUpToAt(e, k - 1, ix);
    }
  }

  /** Entry `ix` of the flow pass is the flux between points `ix` and
      `ix + 1` of the elevations it reads. */
  lemma FlowsAt(e: seq<real>, ix: nat)
    requires |e| == nX + 2 && ix <= nX
    ensures Flows(e)[ix] == Flux(e[ix], e[ix + 1])
  {
    FlowsUpToAt(e, nX + 1, ix);
  }

  /** Every entry of a prefix of the elevation pass is what the pass leaves
      at that point. */
  lemma {:induction false} ElevatedUpToAt(e: seq<real>, f: seq<real>, k: nat, ix: nat)
    requires |e| == nX + 2 && |f| == nX + 1 && ix < k <= nX + 2
    ensures ElevatedUpTo(e, f, k)[ix] == ElevationAt(e, f, ix)
    decreases k
  {
    if ix < k - 1 {
      ElevatedUpToAt(e, f, k - 1, ix);
    }
  }

  /** The elevation pass moves each interior point by its net flow and
      leaves the two edge points as they were. */
  lemma ElevatedAt(e: seq<real>, f: seq<real>, ix: nat)
    requires |e| == nX + 2 && |f| == nX + 1 && ix < nX + 2
    ensures 1 <= ix <= nX ==> Elevated(e, f)[ix] == e[ix] + (snowFall + f[ix - 1] - f[ix]) * timeStep as real
    ensures (ix == 0 || ix == nX + 1) ==> Elevated(e, f)[ix] == e[ix]
  {
    ElevatedUpToAt(e, f, nX + 2, ix);
  }

  // ---------------------------------------------------------------------------
  // The flow pass

  /** Equal neighbours produce no flow between them. */
  lemma FlowsFlat(e: seq<real>, ix: nat)
    requires |e| == nX + 2 && ix <= nX && e[ix] == e[ix + 1]
    ensures Flows(e)[ix] == 0.0
  {
    FlowsAt(e, ix);
    FluxSquares(e[ix], e[ix + 1]);
  }

  /** With both edge points at zero, the flux out of the left edge is never
      positive and the flux into the right edge is never negative: the ice
      flows outward at both ends. */
  lemma EdgeFlowsOutward(e: seq<real>)
    requires |e| == nX + 2 && e[0] == 0.0 && e[nX + 1] == 0.0
    ensures Flows(e)[0] <= 0.0 && Flows(e)[nX] >= 0.0
    ensures Flows(e)[0] < 0.0 <==> e[1] != 0.0
    ensures Flows(e)[nX] > 0.0 <==> e[nX] != 0.0
  {
    var k := flowParam / (2.0 * dX * dX);
    FlowsAt(e, 0);
    FlowsAt(e, nX);
    FluxSquares(e[0], e[1]);
    FluxSquares(e[nX], e[nX + 1]);
    ScaledSquare(e[1], k);
    ScaledSquare(e[nX], k);
  }

  // ---------------------------------------------------------------------------
  // The elevation pass

  /** The prefix form of the conservation law: the first `k` interior points
      gain `k` steps of snow plus what flows in at the left of point 1 minus
      what flows out at the right of point `k`. */
  lemma {:induction false} ElevatedPrefix(e: seq<real>, f: seq<real>, k: nat)
    requires |e| == nX + 2 && |f| == nX + 1 && k <= nX
    ensures Sum(Elevated(e, f)[1..k + 1]) == Sum(e[1..k + 1]) + (k as real * snowFall + f[0] - f[k]) * timeStep as real
  {
    var e' := Elevated(e, f);
    if k > 0 {
      ElevatedPrefix(e, f, k - 1);
      assert e'[1..k + 1][..k - 1] == e'[1..k];
      assert e[1..k + 1][..k - 1] == e[1..k];
      ElevatedAt(e, f, k);
    }
  }

  /** Conservation: one elevation pass changes the interior volume by `nX`
      steps of snow plus the flux in at the left edge minus the flux out at
      the right edge; the fluxes between interior points cancel. */
  lemma ElevatedVolume(e: seq<real>, f: seq<real>)
    requires |e| == nX + 2 && |f| == nX + 1
    ensures Volume(Elevated(e, f)) == Volume(e) + (nX as real * snowFall + f[0] - f[nX]) * timeStep as real
  {
    ElevatedPrefix(e, f, nX);
  }

  /** The elevation pass leaves the two edge points as they were. */
  lemma ElevatedEdges(e: seq<real>, f: seq<real>)
    requires |e| == nX + 2 && |f| == nX + 1
    ensures Elevated(e, f)[0] == e[0] && Elevated(e, f)[nX + 1] == e[nX + 1]
  {
    ElevatedAt(e, f, 0);
    ElevatedAt(e, f, nX + 1);
  }

  // ---------------------------------------------------------------------------
  // Whole steps and runs

  /** Every step leaves the edge points where they were, so after any number
      of steps they are still at their initial value. */
  lemma {:induction false} RunEdges(s: Ice, n: nat)
    requires WellSized(s)
    ensures Run(s, n).elevations[0] == s.elevations[0]
    ensures Run(s, n).elevations[nX + 1] == s.elevations[nX + 1]
    decreases n
  {
    if n > 0 {
      ElevatedEdges(s.elevations, Flows(s.elevations));
      RunEdges(Step(s), n - 1);
    }
  }

  /** The most a step can add to the interior volume: `nX` steps of snow. */
  const maxGain: real := nX as real * snowFall * timeStep as real

  /** With the edges at zero, a step adds at most `maxGain` to the interior
      volume: any flow across the edges is a loss. */
  lemma StepVolumeBound(s: Ice)
    requires WellSized(s) && s.elevations[0] == 0.0 && s.elevations[nX + 1] == 0.0
    ensures Volume(Step(s).elevations) <= Volume(s.elevations) + maxGain
  {
    var f := Flows(s.elevations);
    ElevatedVolume(s.elevations, f);
    EdgeFlowsOutward(s.elevations);
  }

  /** With the edges at zero, `n` steps add at most `n` times `maxGain` to
      the interior volume. */
  lemma {:induction false} RunVolumeBound(s: Ice, n: nat)
    requires WellSized(s) && s.elevations[0] == 0.0 && s.elevations[nX + 1] == 0.0
    ensures Volume(Run(s, n).elevations) <= Volume(s.elevations) + n as real * maxGain
    decreases n
  {
    if n > 0 {
      StepVolumeBound(s);
      ElevatedEdges(s.elevations, Flows(s.elevations));
      RunVolumeBound(Step(s), n - 1);
      assert maxGain + (n - 1) as real * maxGain == n as real * maxGain;
    }
  }

  /** From bare ground, the interior volume after `n` steps is at most `n`
      times `maxGain`. */
  lemma StartVolumeBound(n: nat)
    ensures Volume(Run(Start(), n).elevations) <= n as real * maxGain
  {
    assert Start().elevations[1..nX + 1] == Zeros(nX);
    ZerosSum(nX);
    RunVolumeBound(Start(), n);
  }

  /** Zeros sum to zero. */
  lemma {:induction false} ZerosSum(n: nat)
    ensures Sum(Zeros(n)) == 0.0
  {
    if n > 0 {
      assert Zeros(n)[..n - 1] == Zeros(n - 1);
      ZerosSum(n - 1);
    }
  }

  /** The first step from bare ground: no flow anywhere, and every interior
      point gains one step of snow, `snowFall * timeStep` metres. */
  lemma FirstStep()
    ensures forall ix :: 0 <= ix < nX + 1 ==> Step(Start()).flows[ix] == 0.0
    ensures forall ix :: 0 <= ix < nX + 2 ==>
              Step(Start()).elevations[ix] == if 1 <= ix <= nX then snowFall * timeStep as real else 0.0
  {
    var e := Start().elevations;
    var f := Flows(e);
    forall ix | 0 <= ix < nX + 1
      ensures f[ix] == 0.0
    {
      FlowsFlat(e, ix);
    }
    forall ix | 0 <= ix < nX + 2
      ensures Elevated(e, f)[ix] == if 1 <= ix <= nX then snowFall * timeStep as real else 0.0
    {
      ElevatedAt(e, f, ix);
    }
  }

  // ---------------------------------------------------------------------------
  // Symmetry

  /** The elevations read the same from either end. */
  ghost predicate Mirrored(e: seq<real>) {
    forall i :: 0 <= i < |e| ==> e[i] == e[|e| - 1 - i]
  }

  /** The flows of a mirrored sheet are mirrored with their sign reversed:
      what flows left at one end flows right at the other. */
  lemma FlowsMirrored(e: seq<real>)
    requires |e| == nX + 2 && Mirrored(e)
    ensures forall ix :: 0 <= ix <= nX ==> Flows(e)[nX - ix] == -Flows(e)[ix]
  {
    forall ix | 0 <= ix <= nX
      ensures Flows(e)[nX - ix] == -Flows(e)[ix]
    {
      assert e[nX - ix] == e[ix + 1] && e[nX - ix + 1] == e[ix];
      FlowsAt(e, ix);
      FlowsAt(e, nX - ix);
      FluxAntisymmetric(e[ix], e[ix + 1]);
    }
  }

  /** A step keeps a mirrored sheet mirrored. */
  lemma StepMirrored(s: Ice)
    requires WellSized(s) && Mirrored(s.elevations)
    ensures Mirrored(Step(s).elevations)
  {
    var e, f := s.elevations, Flows(s.elevations);
    FlowsMirrored(e);
    var e' := Step(s).elevations;
    forall i | 0 <= i < nX + 2
      ensures e'[i] == e'[nX + 1 - i]
    {
      var j := nX + 1 - i;
      ElevatedAt(e, f, i);
      ElevatedAt(e, f, j);
      if 1 <= i <= nX {
        assert f[j - 1] == -f[i] && f[j] == -f[i - 1];
      }
    }
  }

  /** A mirrored sheet stays mirrored for any number of steps. */
  lemma {:induction false} RunMirrored(s: Ice, n: nat)
    requires WellSized(s) && Mirrored(s.elevations)
    ensures Mirrored(Run(s, n).elevations)
    decreases n
  {
    if n > 0 {
      StepMirrored(s);
      RunMirrored(Step(s), n - 1);
    }
  }

  /** Bare ground is mirrored, so the sheet grown from it is mirrored after
      any number of steps. */
  lemma StartMirrored(n: nat)
    ensures Mirrored(Run(Start(), n).elevations)
  {
    RunMirrored(Start(), n);
  }

  /** `range(0, nYears, timeStep)` has 200 values. */
  lemma StepCount()
    ensures nSteps == 200 && nSteps * timeStep == nYears
  {
  }
}
