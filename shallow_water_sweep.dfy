/** The column-major sweep of ShallowWaterModel position by position: how
    its positions follow one another, which cells each stretch of it writes,
    and which value every cell holds once the sweep has passed it. */
module ShallowWaterSweep {
  import opened Matrix
  import opened ShallowWaterModel

  // Each predicate below is false unless the settings, tables and grid it
  // speaks of are valid.

  /** `s` is the grid when the sweep of `g` reaches position `(c, r)`. */
  ghost predicate Reached(cfg: Config, prof: Profiles, g: Grid, c: nat, r: nat, s: Grid) {
    if Ready(cfg, prof, g) && Position(cfg, c, r) then s == SweepUpTo(cfg, prof, g, c, r) else false
  }

  /** `s'` is the grid after the loop body for cell `(r, c)` ran on `s`. */
  ghost predicate Stepped(cfg: Config, prof: Profiles, s: Grid, r: nat, c: nat, s': Grid) {
    if Ready(cfg, prof, s) && Interior(cfg, r, c) then s' == CellStep(cfg, prof, s, r, c) else false
  }

  /** `g'` is the grid after one whole sweep of `g`. */
  ghost predicate Swept(cfg: Config, prof: Profiles, g: Grid, g': Grid) {
    if Ready(cfg, prof, g) then g' == Sweep(cfg, prof, g) else false
  }

  // ---------------------------------------------------------------------------
  // Positions, in the order the loops reach them

  /** The sweep starts at position `(0, 0)` with the grid it was given. */
  lemma ReachedStart(cfg: Config, prof: Profiles, g: Grid)
    requires Ready(cfg, prof, g)
    ensures Reached(cfg, prof, g, 0, 0, g)
  {
  }

  /** The loop body at cell `(r, c)` takes the sweep from `(c, r)` to `(c, r + 1)`. */
  lemma ReachedNext(cfg: Config, prof: Profiles, g: Grid, c: nat, r: nat, s: Grid, s': Grid)
    requires Reached(cfg, prof, g, c, r, s) && Stepped(cfg, prof, s, r, c, s')
    ensures Reached(cfg, prof, g, c, r + 1, s')
  {
  }

  /** The end of column `c` is the start of column `c + 1`. */
  lemma ReachedColumn(cfg: Config, prof: Profiles, g: Grid, c: nat, s: Grid)
    requires Reached(cfg, prof, g, c, cfg.nrow, s) && c < cfg.ncol
    ensures Reached(cfg, prof, g, c + 1, 0, s)
  {
  }

  /** Position `(ncol, 0)` ends the sweep. */
  lemma ReachedEnd(cfg: Config, prof: Profiles, g: Grid, s: Grid)
    requires Reached(cfg, prof, g, cfg.ncol, 0, s)
    ensures Swept(cfg, prof, g, s)
  {
  }

  /** `s` is the grid after `n` sweeps of `g`. */
  ghost predicate SweptTimes(cfg: Config, prof: Profiles, g: Grid, n: nat, s: Grid) {
    if Ready(cfg, prof, g) then s == Sweeps(cfg, prof, g, n) else false
  }

  /** `s'` is the grid after one call of animStep on `s`. */
  ghost predicate Animated(cfg: Config, prof: Profiles, s: Grid, s': Grid) {
    if Ready(cfg, prof, s) then s' == AnimStep(cfg, prof, s) else false
  }

  /** `s` is the grid after `n` calls of animStep on `g`. */
  ghost predicate Ran(cfg: Config, prof: Profiles, g: Grid, n: nat, s: Grid) {
    if Ready(cfg, prof, g) then s == Run(cfg, prof, g, n) else false
  }

  /** No sweep yet. */
  lemma SweptTimesStart(cfg: Config, prof: Profiles, g: Grid)
    requires Ready(cfg, prof, g)
    ensures SweptTimes(cfg, prof, g, 0, g)
  {
  }

  /** One more sweep. */
  lemma SweptTimesNext(cfg: Config, prof: Profiles, g: Grid, n: nat, s: Grid, s': Grid)
    requires SweptTimes(cfg, prof, g, n, s) && Swept(cfg, prof, s, s')
    ensures SweptTimes(cfg, prof, g, n + 1, s')
  {
  }

  /** The boundary block followed by `ntAnim` sweeps is one call of animStep. */
  lemma AnimatedBy(cfg: Config, prof: Profiles, g: Grid, s: Grid)
    requires Ready(cfg, prof, g) && SweptTimes(cfg, prof, Boundary(cfg, g), cfg.ntAnim, s)
    ensures Animated(cfg, prof, g, s)
  {
  }

  /** No call yet. */
  lemma RanStart(cfg: Config, prof: Profiles, g: Grid)
    requires Ready(cfg, prof, g)
    ensures Ran(cfg, prof, g, 0, g)
  {
  }

  /** One more call of animStep. */
  lemma RanNext(cfg: Config, prof: Profiles, g: Grid, n: nat, s: Grid, s': Grid)
    requires Ran(cfg, prof, g, n, s) && Animated(cfg, prof, s, s')
    ensures Ran(cfg, prof, g, n + 1, s')
  {
  }

  // ---------------------------------------------------------------------------
  // Which cells the sweep writes

  /** Going from position `(c, r - 1)` to `(c, r)` writes only cell `(r - 1, c)`. */
  lemma SweepStep(cfg: Config, prof: Profiles, g: Grid, c: nat, r: nat, i: nat, j: nat, s: Grid, s': Grid)
    requires r > 0 && Reached(cfg, prof, g, c, r - 1, s) && Reached(cfg, prof, g, c, r, s')
    requires i <= cfg.nrow && j <= cfg.ncol && (i != r - 1 || j != c)
    ensures s'[i][j] == s[i][j]
  {
  }

  /** Until the sweep reaches a cell, that cell holds its value from before the
      sweep; a cell outside the `nrow` by `ncol` block is never written. */
  lemma {:induction false} SweepFrame(cfg: Config, prof: Profiles, g: Grid, c: nat, r: nat, i: nat, j: nat, s: Grid)
    requires Reached(cfg, prof, g, c, r, s)
    requires i <= cfg.nrow && j <= cfg.ncol
    requires !Interior(cfg, i, j) || !Visited(i, j, c, r)
    ensures s[i][j] == g[i][j]
    decreases c, r
  {
    if r > 0 {
      var s0 := SweepUpTo(cfg, prof, g, c, r - 1);
      SweepFrame(cfg, prof, g, c, r - 1, i, j, s0);
      SweepStep(cfg, prof, g, c, r, i, j, s0, s);
    } else if c > 0 {
      SweepFrame(cfg, prof, g, c - 1, cfg.nrow, i, j, s);
    }
  }

  /** Once the sweep has passed a cell it never writes it again: the cell keeps
      the value `t` its own update gave it. */
  lemma {:induction false} SweepSettled(cfg: Config, prof: Profiles, g: Grid, c: nat, r: nat, i: nat, j: nat, s: Grid, t: Grid)
    requires Reached(cfg, prof, g, c, r, s)
    requires Interior(cfg, i, j) && Visited(i, j, c, r) && Reached(cfg, prof, g, j, i + 1, t)
    ensures s[i][j] == t[i][j]
    decreases c, r
  {
    if r > 0 {
      if i != r - 1 || j != c {
        SweepSettledStep(cfg, prof, g, c, r, i, j, s, t);
      }
    } else {
      SweepSettled(cfg, prof, g, c - 1, cfg.nrow, i, j, s, t);
    }
  }

  /** The step case of `SweepSettled`: the cell was passed before position `(c, r - 1)`. */
  lemma {:induction false} SweepSettledStep(cfg: Config, prof: Profiles, g: Grid, c: nat, r: nat, i: nat, j: nat, s: Grid, t: Grid)
    requires Reached(cfg, prof, g, c, r, s) && r > 0
    requires Interior(cfg, i, j) && Visited(i, j, c, r - 1) && Reached(cfg, prof, g, j, i + 1, t)
    ensures s[i][j] == t[i][j]
    decreases c, r, 0
  {
    var s0 := SweepUpTo(cfg, prof, g, c, r - 1);
    SweepSettled(cfg, prof, g, c, r - 1, i, j, s0, t);
    SweepStep(cfg, prof, g, c, r, i, j, s0, s);
  }

  /** The sweep's final cell `(r, c)` is what the update of that cell made of
      the grid `s` it found at position `(c, r)`. */
  lemma SweepCell(cfg: Config, prof: Profiles, g: Grid, r: nat, c: nat, s: Grid, g': Grid)
    requires Interior(cfg, r, c) && Reached(cfg, prof, g, c, r, s) && Swept(cfg, prof, g, g')
    ensures g'[r][c] == Updated(cfg, prof, s, r, c)
  {
    SweepSettled(cfg, prof, g, cfg.ncol, 0, r, c, g', SweepUpTo(cfg, prof, g, c, r + 1));
  }

  /** At position `(c, r)` a cell the sweep has already passed holds its final value. */
  lemma SweepSeen(cfg: Config, prof: Profiles, g: Grid, c: nat, r: nat, i: nat, j: nat, s: Grid, g': Grid)
    requires Reached(cfg, prof, g, c, r, s) && Swept(cfg, prof, g, g')
    requires Interior(cfg, i, j) && Visited(i, j, c, r)
    ensures s[i][j] == g'[i][j]
  {
    var t := SweepUpTo(cfg, prof, g, j, i + 1);
    SweepSettled(cfg, prof, g, c, r, i, j, s, t);
    SweepSettled(cfg, prof, g, cfg.ncol, 0, i, j, g', t);
  }
}
