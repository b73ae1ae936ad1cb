/** The edges of the shallow-water grid: what the boundary block does, which
    entries the sweep never writes, and what that means for the state animStep
    leaves behind. */
module ShallowWaterEdges {
  import opened Matrix
  import opened ShallowWaterModel
  import opened ShallowWaterSweep
  import opened ShallowWaterProps

  /** Applying the boundary block twice is applying it once. */
  lemma BoundaryIdempotent(cfg: Config, g: Grid)
    requires WellShaped(cfg, g)
    ensures Boundary(cfg, Boundary(cfg, g)) == Boundary(cfg, g)
  {
    var b := Boundary(cfg, g);
    Ext(Boundary(cfg, b), b);
  }

  /** The boundary block writes only `V` in rows 0 and `nrow`, and `U` and `H`
      in columns 0 and `ncol`. */
  lemma BoundaryFrame(cfg: Config, g: Grid, i: nat, j: nat)
    requires WellShaped(cfg, g) && i <= cfg.nrow && j <= cfg.ncol
    ensures 0 < i < cfg.nrow ==> Boundary(cfg, g)[i][j].V == g[i][j].V
    ensures 0 < j < cfg.ncol ==> Boundary(cfg, g)[i][j].(V := g[i][j].V) == g[i][j]
    ensures Boundary(cfg, g)[i][j].(U := g[i][j].U, V := g[i][j].V, H := g[i][j].H) == g[i][j]
    ensures cfg.horizontalWrap || j == 0 || j == cfg.ncol || Boundary(cfg, g)[i][j].U == g[i][j].U
  {
  }

  /** The edges the boundary block leaves: rows 0 and `nrow` of `V` zero; with
      wrap, column `ncol` of `U` and `H` equal to column 0; without wrap,
      columns 0 and `ncol` of `U` zero and `H` untouched. */
  lemma BoundaryEdges(cfg: Config, g: Grid, i: nat, j: nat)
    requires WellShaped(cfg, g) && i <= cfg.nrow && j <= cfg.ncol
    ensures j < cfg.ncol ==> Boundary(cfg, g)[0][j].V == 0.0 && Boundary(cfg, g)[cfg.nrow][j].V == 0.0
    ensures cfg.horizontalWrap && i < cfg.nrow ==>
      Boundary(cfg, g)[i][cfg.ncol].U == Boundary(cfg, g)[i][0].U && Boundary(cfg, g)[i][cfg.ncol].H == Boundary(cfg, g)[i][0].H
    ensures !cfg.horizontalWrap && i < cfg.nrow ==> Boundary(cfg, g)[i][0].U == 0.0 && Boundary(cfg, g)[i][cfg.ncol].U == 0.0
    ensures !cfg.horizontalWrap ==> Boundary(cfg, g)[i][j].H == g[i][j].H
  {
  }

  /** A cell the sweep loops never visit keeps its value through a sweep. */
  lemma SweepExterior(cfg: Config, prof: Profiles, g: Grid, g': Grid, i: nat, j: nat)
    requires Swept(cfg, prof, g, g') && i <= cfg.nrow && j <= cfg.ncol && !Interior(cfg, i, j)
    ensures g'[i][j] == g[i][j]
  {
    SweepFrame(cfg, prof, g, cfg.ncol, 0, i, j, g');
  }

  /** ... and through any number of sweeps. */
  lemma {:induction false} SweepsExterior(cfg: Config, prof: Profiles, g: Grid, n: nat, s: Grid, i: nat, j: nat)
    requires Ready(cfg, prof, g) && s == Sweeps(cfg, prof, g, n)
    requires i <= cfg.nrow && j <= cfg.ncol && !Interior(cfg, i, j)
    ensures s[i][j] == g[i][j]
  {
    if n > 0 {
      var p := Sweeps(cfg, prof, g, n - 1);
      SweepsExterior(cfg, prof, g, n - 1, p, i, j);
      SweepExterior(cfg, prof, p, s, i, j);
    }
  }

  /** The edges after one call of animStep, in terms of the grid before it:
      row `nrow` of `V` is zero; with wrap, column `ncol` of `U` and `H` holds
      column 0 as it was before the call (the sweep has moved column 0 on
      since); without wrap, column `ncol` of `U` is zero. */
  lemma AnimStepEdges(cfg: Config, prof: Profiles, g: Grid, a: Grid, i: nat, j: nat)
    requires Ready(cfg, prof, g) && a == AnimStep(cfg, prof, g)
    requires i < cfg.nrow && j < cfg.ncol
    ensures a[cfg.nrow][j].V == 0.0
    ensures cfg.horizontalWrap ==> a[i][cfg.ncol].U == g[i][0].U && a[i][cfg.ncol].H == g[i][0].H
    ensures !cfg.horizontalWrap ==> a[i][cfg.ncol].U == 0.0
  {
    var b := Boundary(cfg, g);
    SweepsExterior(cfg, prof, b, cfg.ntAnim, a, cfg.nrow, j);
    SweepsExterior(cfg, prof, b, cfg.ntAnim, a, i, cfg.ncol);
  }

  /** The boundary block keeps the padding beyond the arrays' extents zero. */
  lemma BoundaryPadded(cfg: Config, g: Grid)
    requires WellShaped(cfg, g) && Padded(cfg, g)
    ensures Padded(cfg, Boundary(cfg, g))
  {
  }

  /** Sweeps keep the padding zero, since they never write outside the block. */
  lemma SweepsPadded(cfg: Config, prof: Profiles, g: Grid, n: nat, s: Grid)
    requires Ready(cfg, prof, g) && Padded(cfg, g) && s == Sweeps(cfg, prof, g, n)
    ensures Padded(cfg, s)
  {
    forall i, j | 0 <= i <= cfg.nrow && 0 <= j <= cfg.ncol && !Interior(cfg, i, j)
      ensures s[i][j] == g[i][j]
    {
      SweepsExterior(cfg, prof, g, n, s, i, j);
    }
  }

  /** So does any number of calls of animStep. */
  lemma {:induction false} RunPadded(cfg: Config, prof: Profiles, g: Grid, n: nat, s: Grid)
    requires Ready(cfg, prof, g) && Padded(cfg, g) && s == Run(cfg, prof, g, n)
    ensures Padded(cfg, s)
  {
    if n > 0 {
      var p := Run(cfg, prof, g, n - 1);
      RunPadded(cfg, prof, g, n - 1, p);
      BoundaryPadded(cfg, p);
      SweepsPadded(cfg, prof, Boundary(cfg, p), cfg.ntAnim, s);
    }
  }

  /** With wrap, the first sweep after the boundary block finds `H[r, -1]`,
      that is `H[r, ncol]`, equal to `H[r, 0]`: the east-west height gradient
      on the seam of column 0 is zero, whatever the heights. */
  lemma WrapSeamFlat(cfg: Config, prof: Profiles, g: Grid, g': Grid, r: nat)
    requires Ready(cfg, prof, g) && cfg.horizontalWrap && r < cfg.nrow
    requires Swept(cfg, prof, Boundary(cfg, g), g')
    ensures g'[r][0].dHdX == 0.0
  {
    SweepDerivativesX(cfg, prof, Boundary(cfg, g), r, 0, g');
  }

  /** So with one sweep per call, as the script is shipped, every call of
      animStep leaves `dHdX` zero in column 0. */
  lemma AnimStepSeamFlat(cfg: Config, prof: Profiles, g: Grid, a: Grid, r: nat)
    requires Ready(cfg, prof, g) && cfg.horizontalWrap && cfg.ntAnim == 1 && r < cfg.nrow
    requires a == AnimStep(cfg, prof, g)
    ensures a[r][0].dHdX == 0.0
  {
    assert Sweeps(cfg, prof, Boundary(cfg, g), 0) == Boundary(cfg, g);
    WrapSeamFlat(cfg, prof, g, a, r);
  }

  /** The `NSGradient` start with the script's other settings. */
  const GradientStart := ScriptConfig.(initialPerturbation := NSGradient)

  /** The cells around `(0, 0)` after the boundary block of the first call from `GradientStart`. */
  lemma GradientStartEdge()
    ensures Boundary(GradientStart, Initial(GradientStart))[0][0] == ZeroCell.(H := 0.1)
    ensures Boundary(GradientStart, Initial(GradientStart))[GradientStart.nrow - 1][0].H == 0.0
    ensures Boundary(GradientStart, Initial(GradientStart))[1][0].V == 0.0
  {
  }

  /** Row 0 of `V` is zeroed before the sweep but written by it: from
      `GradientStart` the first call of animStep leaves
      `V[0, 0] = -G * 0.1 / dY * dT`, not zero. */
  lemma NorthRowRewritten(prof: Profiles, a: Grid)
    requires Fits(GradientStart, prof)
    requires a == AnimStep(GradientStart, prof, Initial(GradientStart))
    ensures a[0][0].V == -5.88e-6
  {
    var cfg, b := GradientStart, Boundary(GradientStart, Initial(GradientStart));
    assert Sweeps(cfg, prof, b, 0) == b;
    GradientStartEdge();
    SweepAdvance(cfg, prof, b, 0, 0, a);
    SweepTendencies(cfg, prof, b, 0, 0, a);
    SweepDerivativesY(cfg, prof, b, 0, 0, a);
    SweepRotationDirect(cfg, prof, b, 0, 0, a);
  }
}
