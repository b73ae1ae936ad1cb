/** What one sweep of ShallowWaterModel leaves in each cell it visits, in
    terms of the grid before the sweep and the cells it has already updated. */
module ShallowWaterProps {
  import opened Matrix
  import opened ShallowWaterModel
  import opened ShallowWaterSweep

  // ---------------------------------------------------------------------------
  // The Gauss-Seidel equations of one sweep: in each cell, `g` (before) and
  // `g'` (after) are related as follows. A neighbour the sweep has already
  // passed is read with its new value, any other with its old one.

  /** The east-west derivatives of cell `(r, c)`. The west neighbour of `H` is
      the new `H[r, c-1]`, or the old `H[r, ncol]` at `c == 0`. */
  lemma SweepDerivativesX(cfg: Config, prof: Profiles, g: Grid, r: nat, c: nat, g': Grid)
    requires Swept(cfg, prof, g, g') && Interior(cfg, r, c)
    ensures g'[r][c].dHdX == (g[r][c].H - (if c == 0 then g[r][cfg.ncol].H else g'[r][c - 1].H)) / dX
    ensures g'[r][c].dUdX == (g[r][c + 1].U - g[r][c].U) / dX
  {
    var s := SweepUpTo(cfg, prof, g, c, r);
    SweepCell(cfg, prof, g, r, c, s, g');
    SweepFrame(cfg, prof, g, c, r, r, c, s);
    SweepFrame(cfg, prof, g, c, r, r, c + 1, s);
    if c == 0 {
      SweepFrame(cfg, prof, g, c, r, r, cfg.ncol, s);
    } else {
      SweepSeen(cfg, prof, g, c, r, r, c - 1, s, g');
    }
  }

  /** The north-south derivatives of cell `(r, c)`. The north neighbour of `H`
      is the new `H[r-1, c]`, or the old `H[nrow-1, c]` at `r == 0`. */
  lemma SweepDerivativesY(cfg: Config, prof: Profiles, g: Grid, r: nat, c: nat, g': Grid)
    requires Swept(cfg, prof, g, g') && Interior(cfg, r, c)
    ensures g'[r][c].dHdY == (g[r][c].H - (if r == 0 then g[cfg.nrow - 1][c].H else g'[r - 1][c].H)) / dY
    ensures g'[r][c].dVdY == (g[r + 1][c].V - g[r][c].V) / dY
  {
    var s := SweepUpTo(cfg, prof, g, c, r);
    SweepCell(cfg, prof, g, r, c, s, g');
    SweepFrame(cfg, prof, g, c, r, r, c, s);
    SweepFrame(cfg, prof, g, c, r, r + 1, c, s);
    if r == 0 {
      SweepFrame(cfg, prof, g, c, r, cfg.nrow - 1, c, s);
    } else {
      SweepSeen(cfg, prof, g, c, r, r - 1, c, s, g');
    }
  }

  /** The rotational terms of cell `(r, c)` in direct mode: the old velocities
      scaled by the row's coefficient; `tempU` and `tempV` are left alone. */
  lemma SweepRotationDirect(cfg: Config, prof: Profiles, g: Grid, r: nat, c: nat, g': Grid)
    requires Swept(cfg, prof, g, g') && Interior(cfg, r, c) && !cfg.interpolateRotation
    ensures
      && g'[r][c].rotU == Rotated(prof.rotConst[r], g[r][c].U)
      && g'[r][c].rotV == Rotated(prof.rotConst[r], g[r][c].V)
      && g'[r][c].tempU == g[r][c].tempU && g'[r][c].tempV == g[r][c].tempV
  {
    var s := SweepUpTo(cfg, prof, g, c, r);
    SweepCell(cfg, prof, g, r, c, s, g');
    SweepFrame(cfg, prof, g, c, r, r, c, s);
  }

  /** The `U` rotational term of cell `(r, c)` in interpolated mode. The cell's
      new `tempU` is averaged with the `tempU` of row `r - 1`: the new value
      the sweep gave it, or at `r == 0` the old row `nrow - 1`, which holds
      what the previous call left there (the cell itself when `nrow == 1`). */
  lemma SweepRotationInterpolatedU(cfg: Config, prof: Profiles, g: Grid, r: nat, c: nat, g': Grid)
    requires Swept(cfg, prof, g, g') && Interior(cfg, r, c) && cfg.interpolateRotation
    ensures
      && g'[r][c].tempU == Rotated((g[r][c].U + g[r][c + 1].U) / 2.0, prof.rotConst[r])
      && g'[r][c].rotU == (g'[r][c].tempU + (if r == 0 && cfg.nrow > 1 then g[cfg.nrow - 1][c].tempU
                                            else g'[Prev(r, cfg.nrow)][c].tempU)) / 2.0
  {
    var s := SweepUpTo(cfg, prof, g, c, r);
    SweepCell(cfg, prof, g, r, c, s, g');
    SweepFrame(cfg, prof, g, c, r, r, c, s);
    SweepFrame(cfg, prof, g, c, r, r, c + 1, s);
    if r == 0 {
      SweepFrame(cfg, prof, g, c, r, cfg.nrow - 1, c, s);
    } else {
      SweepSeen(cfg, prof, g, c, r, r - 1, c, s, g');
    }
  }

  /** The `V` rotational term of cell `(r, c)` in interpolated mode: the cell's
      new `tempV` averaged with the `tempV` of column `c - 1`, which at `c == 0`
      is the old column `ncol - 1` (the cell itself when `ncol == 1`). */
  lemma SweepRotationInterpolatedV(cfg: Config, prof: Profiles, g: Grid, r: nat, c: nat, g': Grid)
    requires Swept(cfg, prof, g, g') && Interior(cfg, r, c) && cfg.interpolateRotation
    ensures
      && g'[r][c].tempV == Rotated((g[r][c].V + g[r + 1][c].V) / 2.0, prof.rotConst[r])
      && g'[r][c].rotV == (g'[r][c].tempV + (if c == 0 && cfg.ncol > 1 then g[r][cfg.ncol - 1].tempV
                                            else g'[r][Prev(c, cfg.ncol)].tempV)) / 2.0
  {
    var s := SweepUpTo(cfg, prof, g, c, r);
    SweepCell(cfg, prof, g, r, c, s, g');
    SweepFrame(cfg, prof, g, c, r, r, c, s);
    SweepFrame(cfg, prof, g, c, r, r + 1, c, s);
    if c == 0 {
      SweepFrame(cfg, prof, g, c, r, r, cfg.ncol - 1, s);
    } else {
      SweepSeen(cfg, prof, g, c, r, r, c - 1, s, g');
    }
  }

  /** The time derivatives of cell `(r, c)`, from the cell's new scratch values
      and its old velocities. */
  lemma SweepTendencies(cfg: Config, prof: Profiles, g: Grid, r: nat, c: nat, g': Grid)
    requires Swept(cfg, prof, g, g') && Interior(cfg, r, c)
    ensures
      && g'[r][c].dUdT == g'[r][c].rotV - flowConst * g'[r][c].dHdX - dragConst * g[r][c].U + prof.windU[r]
      && g'[r][c].dVdT == -g'[r][c].rotU - flowConst * g'[r][c].dHdY - dragConst * g[r][c].V
      && g'[r][c].dHdT == -(g'[r][c].dUdX + g'[r][c].dVdY) * HBackground / dX
  {
    var s := SweepUpTo(cfg, prof, g, c, r);
    SweepCell(cfg, prof, g, r, c, s, g');
    SweepFrame(cfg, prof, g, c, r, r, c, s);
  }

  /** The forward step of cell `(r, c)`: each field moves by its new time
      derivative times `dT`, and keeps that value to the end of the sweep. */
  lemma SweepAdvance(cfg: Config, prof: Profiles, g: Grid, r: nat, c: nat, g': Grid)
    requires Swept(cfg, prof, g, g') && Interior(cfg, r, c)
    ensures
      && g'[r][c].U == g[r][c].U + g'[r][c].dUdT * dT
      && g'[r][c].V == g[r][c].V + g'[r][c].dVdT * dT
      && g'[r][c].H == g[r][c].H + g'[r][c].dHdT * dT
  {
    var s := SweepUpTo(cfg, prof, g, c, r);
    SweepCell(cfg, prof, g, r, c, s, g');
    SweepFrame(cfg, prof, g, c, r, r, c, s);
  }
}
