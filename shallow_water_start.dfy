/** What the shallow-water script sets up before its first frame: the forcing
    tables, the initial perturbation, and the state the model leaves alone. */
module ShallowWaterStart {
  import opened Matrix
  import opened ShallowWaterModel
  import opened ShallowWaterSweep

  // ---------------------------------------------------------------------------
  // Indexing

  /** `Prev` is Python's `i - 1` on an axis of length `n`, negative index included. */
  lemma PrevIsPythonIndex(i: nat, n: nat)
    requires i < n
    ensures Prev(i, n) == (i as int - 1) % n
  {
  }

  // ---------------------------------------------------------------------------
  // Forcing tables

  /** Under `PlusMinus` the coefficients of rows `i` and `nrow - 1 - i` average
      to the mid value -3.5e-5. */
  lemma PlusMinusCentred(cfg: Config, sin: real -> real, radians: real -> real, i: nat)
    requires cfg.nrow >= 1 && cfg.rotationScheme == PlusMinus && i < cfg.nrow
    ensures ProfilesOf(cfg, sin, radians).rotConst[i] + ProfilesOf(cfg, sin, radians).rotConst[cfg.nrow - 1 - i] == -7.0e-5
  {
    var n := cfg.nrow as real;
    var d := i as real - (n - 1.0) / 2.0;
    var d' := (cfg.nrow - 1 - i) as real - (n - 1.0) / 2.0;
    assert d' == -d;
    assert 0.8 * d' / n == -(0.8 * d / n);
  }

  /** Under `PlusMinus` the coefficient grows from row to row. */
  lemma PlusMinusIncreasing(cfg: Config, sin: real -> real, radians: real -> real, i: nat, j: nat)
    requires cfg.nrow >= 1 && cfg.rotationScheme == PlusMinus && i < j < cfg.nrow
    ensures ProfilesOf(cfg, sin, radians).rotConst[i] < ProfilesOf(cfg, sin, radians).rotConst[j]
  {
    var n := cfg.nrow as real;
    var di := i as real - (n - 1.0) / 2.0;
    var dj := j as real - (n - 1.0) / 2.0;
    DivMonotone(0.8 * di, 0.8 * dj, n);
  }

  /** Under `PlusMinus` every coefficient lies strictly between -4.9e-5 and
      -2.1e-5: the same sense of rotation in every row. */
  lemma PlusMinusBounds(cfg: Config, sin: real -> real, radians: real -> real, i: nat)
    requires cfg.nrow >= 1 && cfg.rotationScheme == PlusMinus && i < cfg.nrow
    ensures -4.9e-5 < ProfilesOf(cfg, sin, radians).rotConst[i] < -2.1e-5
  {
    var n := cfg.nrow as real;
    var d := i as real - (n - 1.0) / 2.0;
    DivMonotone(0.8 * d, 0.4 * n, n);
    DivMonotone(-0.4 * n, 0.8 * d, n);
  }

  /** Dividing by a positive number keeps the order. */
  lemma DivMonotone(a: real, b: real, n: real)
    requires a < b && n > 0.0
    ensures a / n < b / n
  {
  }

  /** The constant schemes give every row the same coefficient, and the
      unrecognised ones give zero. */
  lemma ConstantProfiles(cfg: Config, sin: real -> real, radians: real -> real, i: nat)
    requires cfg.nrow >= 1 && i < cfg.nrow
    ensures cfg.rotationScheme == UniformRotation ==> ProfilesOf(cfg, sin, radians).rotConst[i] == -3.5e-5
    ensures cfg.rotationScheme == NoRotation ==> ProfilesOf(cfg, sin, radians).rotConst[i] == 0.0
    ensures cfg.windScheme == UniformWind ==> ProfilesOf(cfg, sin, radians).windU[i] == 1.0e-8
    ensures cfg.windScheme == NoWind ==> ProfilesOf(cfg, sin, radians).windU[i] == 0.0
  {
  }

  /** Under `WithLatitude` the latitudes step by `dxDegrees` from row to row,
      rows `i` and `nrow - 1 - i` average to `meanLatitude - dxDegrees / 2`
      (the script offsets row `irow` by `irow - nrow/2`), and each row's
      coefficient is taken from the latitude just appended; the other schemes leave the table empty. */
  lemma LatitudeTable(cfg: Config, sin: real -> real, radians: real -> real, i: nat)
    requires cfg.nrow >= 1 && i < cfg.nrow
    ensures cfg.rotationScheme != WithLatitude <==> ProfilesOf(cfg, sin, radians).latitude == []
    ensures cfg.rotationScheme == WithLatitude ==>
      var prof := ProfilesOf(cfg, sin, radians);
      && |prof.latitude| == cfg.nrow
      && (i + 1 < cfg.nrow ==> prof.latitude[i + 1] - prof.latitude[i] == dxDegrees)
      && prof.latitude[i] + prof.latitude[cfg.nrow - 1 - i] == 2.0 * meanLatitude - dxDegrees
      && prof.rotConst[i] == -7.0e-5 * sin(radians(prof.latitude[i]))
  {
  }

  // ---------------------------------------------------------------------------
  // Initial state

  /** `Tower` puts a single unit of height at `H[midCell, midCell]`. */
  lemma TowerInitial(cfg: Config, i: nat, j: nat)
    requires ValidConfig(cfg) && cfg.initialPerturbation == Tower && i <= cfg.nrow && j <= cfg.ncol
    ensures Initial(cfg)[cfg.ncol / 2][cfg.ncol / 2].H == 1.0
    ensures Initial(cfg)[i][j].H != 0.0 <==> i == cfg.ncol / 2 && j == cfg.ncol / 2
  {
  }

  /** The gradients raise `H` by 0.1 on the rows (columns) before `midCell`,
      every column (row) of the array included, and nowhere else. */
  lemma GradientInitial(cfg: Config, i: nat, j: nat)
    requires ValidConfig(cfg) && i <= cfg.nrow && j <= cfg.ncol
    ensures cfg.initialPerturbation == NSGradient ==>
      (Initial(cfg)[i][j].H == 0.1 <==> i < cfg.ncol / 2 && i < cfg.nrow) && Initial(cfg)[i][j].H == Initial(cfg)[i][0].H
    ensures cfg.initialPerturbation == EWGradient ==>
      (Initial(cfg)[i][j].H == 0.1 <==> j < cfg.ncol / 2 && i < cfg.nrow) && (i < cfg.nrow ==> Initial(cfg)[i][j].H == Initial(cfg)[0][j].H)
    ensures cfg.initialPerturbation == NoPerturbation ==> Initial(cfg)[i][j].H == 0.0
    ensures Initial(cfg)[i][j].H == 0.0 || Initial(cfg)[i][j].H == 0.1 || Initial(cfg)[i][j].H == 1.0
  {
  }

  /** Apart from `H`, every array starts at zero, and the padding is zero. */
  lemma InitialPadded(cfg: Config)
    ensures Padded(cfg, Initial(cfg))
    ensures forall i, j :: 0 <= i <= cfg.nrow && 0 <= j <= cfg.ncol ==>
      Initial(cfg)[i][j] == ZeroCell.(H := Initial(cfg)[i][j].H)
  {
  }

  // ---------------------------------------------------------------------------
  // A flat ocean at rest

  /** Every array zero. */
  function AtRest(cfg: Config): (g: Grid)
    ensures WellShaped(cfg, g) && Padded(cfg, g)
    ensures forall i, j :: 0 <= i <= cfg.nrow && 0 <= j <= cfg.ncol ==> g[i][j] == ZeroCell
  {
    seq(cfg.nrow + 1, i => seq(cfg.ncol + 1, j => ZeroCell))
  }

  /** No wind in any row. */
  ghost predicate Calm(cfg: Config, prof: Profiles) {
    Fits(cfg, prof) && forall r :: 0 <= r < cfg.nrow ==> prof.windU[r] == 0.0
  }

  /** With no wind, a cell of the flat ocean at rest stays at rest. */
  lemma AtRestCellStep(cfg: Config, prof: Profiles, r: nat, c: nat)
    requires ValidConfig(cfg) && Calm(cfg, prof) && Interior(cfg, r, c)
    ensures CellStep(cfg, prof, AtRest(cfg), r, c) == AtRest(cfg)
  {
    var z := AtRest(cfg);
    assert Updated(cfg, prof, z, r, c) == ZeroCell;
    Ext(CellStep(cfg, prof, z, r, c), z);
  }

  lemma {:induction false} AtRestSweepUpTo(cfg: Config, prof: Profiles, c: nat, r: nat)
    requires ValidConfig(cfg) && Calm(cfg, prof) && Position(cfg, c, r)
    ensures SweepUpTo(cfg, prof, AtRest(cfg), c, r) == AtRest(cfg)
    decreases c, r
  {
    if r > 0 {
      AtRestSweepUpTo(cfg, prof, c, r - 1);
      AtRestCellStep(cfg, prof, r - 1, c);
    } else if c > 0 {
      AtRestSweepUpTo(cfg, prof, c - 1, cfg.nrow);
    }
  }

  lemma {:induction false} AtRestSweeps(cfg: Config, prof: Profiles, n: nat)
    requires ValidConfig(cfg) && Calm(cfg, prof)
    ensures Sweeps(cfg, prof, AtRest(cfg), n) == AtRest(cfg)
  {
    if n > 0 {
      AtRestSweeps(cfg, prof, n - 1);
      AtRestSweepUpTo(cfg, prof, cfg.ncol, 0);
    }
  }

  /** With no wind, the flat ocean at rest is a fixed point of animStep, and
      of any number of calls of it, whatever the rotation. */
  lemma {:induction false} AtRestRun(cfg: Config, prof: Profiles, n: nat)
    requires ValidConfig(cfg) && Calm(cfg, prof)
    ensures AnimStep(cfg, prof, AtRest(cfg)) == AtRest(cfg)
    ensures Run(cfg, prof, AtRest(cfg), n) == AtRest(cfg)
  {
    var z := AtRest(cfg);
    Ext(Boundary(cfg, z), z);
    AtRestSweeps(cfg, prof, cfg.ntAnim);
    if n > 0 {
      AtRestRun(cfg, prof, n - 1);
    }
  }

  /** Without a perturbation the script starts from the ocean at rest, so
      without wind its driver loop never moves it. */
  lemma UnperturbedAtRest(cfg: Config, prof: Profiles, n: nat)
    requires ValidConfig(cfg) && Calm(cfg, prof) && cfg.initialPerturbation == NoPerturbation
    ensures Initial(cfg) == AtRest(cfg)
    ensures Run(cfg, prof, Initial(cfg), n) == Initial(cfg)
  {
    InitialPadded(cfg);
    Ext(Initial(cfg), AtRest(cfg));
    AtRestRun(cfg, prof, n);
  }
}
