/** The layout of the shallow-water script's arrays (shallow_water_simulation.py:69-86):
    their extents, and how their contents make up one `Grid`. */
module ShallowWaterLayout {
  import opened Matrix
  import opened ShallowWaterModel

  /** An `nrow` by `ncol` array. */
  ghost predicate Block(a: array2<real>, nrow: nat, ncol: nat) {
    a.Length0 == nrow && a.Length1 == ncol
  }

  /** The fourteen arrays have the extents the script allocates and are
      fourteen different arrays: `U`, `H` and `dHdX` are `nrow` by `ncol + 1`,
      `V` is `nrow + 1` by `ncol`, the rest `nrow` by `ncol`. */
  ghost predicate Layout(nrow: nat, ncol: nat,
    U: array2<real>, V: array2<real>, H: array2<real>,
    dUdT: array2<real>, dVdT: array2<real>, dHdT: array2<real>,
    dHdX: array2<real>, dHdY: array2<real>, dUdX: array2<real>, dVdY: array2<real>,
    rotV: array2<real>, rotU: array2<real>, tempU: array2<real>, tempV: array2<real>)
  {
    && Block(U, nrow, ncol + 1) && Block(V, nrow + 1, ncol) && Block(H, nrow, ncol + 1) && Block(dUdT, nrow, ncol) && Block(dVdT, nrow, ncol) && Block(dHdT, nrow, ncol) && Block(dHdX, nrow, ncol + 1) && Block(dHdY, nrow, ncol) && Block(dUdX, nrow, ncol) && Block(dVdY, nrow, ncol) && Block(rotV, nrow, ncol) && Block(rotU, nrow, ncol) && Block(tempU, nrow, ncol) && Block(tempV, nrow, ncol)
    && U != V && U != H && U != dUdT && U != dVdT && U != dHdT && U != dHdX && U != dHdY && U != dUdX && U != dVdY && U != rotV && U != rotU && U != tempU && U != tempV
    && V != H && V != dUdT && V != dVdT && V != dHdT && V != dHdX && V != dHdY && V != dUdX && V != dVdY && V != rotV && V != rotU && V != tempU && V != tempV
    && H != dUdT && H != dVdT && H != dHdT && H != dHdX && H != dHdY && H != dUdX && H != dVdY && H != rotV && H != rotU && H != tempU && H != tempV
    && dUdT != dVdT && dUdT != dHdT && dUdT != dHdX && dUdT != dHdY && dUdT != dUdX && dUdT != dVdY && dUdT != rotV && dUdT != rotU && dUdT != tempU && dUdT != tempV
    && dVdT != dHdT && dVdT != dHdX && dVdT != dHdY && dVdT != dUdX && dVdT != dVdY && dVdT != rotV && dVdT != rotU && dVdT != tempU && dVdT != tempV
    && dHdT != dHdX && dHdT != dHdY && dHdT != dUdX && dHdT != dVdY && dHdT != rotV && dHdT != rotU && dHdT != tempU && dHdT != tempV
    && dHdX != dHdY && dHdX != dUdX && dHdX != dVdY && dHdX != rotV && dHdX != rotU && dHdX != tempU && dHdX != tempV
    && dHdY != dUdX && dHdY != dVdY && dHdY != rotV && dHdY != rotU && dHdY != tempU && dHdY != tempV
    && dUdX != dVdY && dUdX != rotV && dUdX != rotU && dUdX != tempU && dUdX != tempV
    && dVdY != rotV && dVdY != rotU && dVdY != tempU && dVdY != tempV
    && rotV != rotU && rotV != tempU && rotV != tempV
    && rotU != tempU && rotU != tempV
    && tempU != tempV
  }

  /** Row `i` of a 2-D array. */
  ghost function Row(a: array2<real>, i: nat): (row: seq<real>)
    requires i < a.Length0
    reads a
    ensures |row| == a.Length1 && forall j :: 0 <= j < a.Length1 ==> row[j] == a[i, j]
  {
    seq(a.Length1, j requires 0 <= j < a.Length1 reads a => a[i, j])
  }

  /** The entries of a 2-D array, row by row. */
  ghost function Contents(a: array2<real>): (m: Mat<real>)
    reads a
    ensures IsMatrix(m, a.Length0, a.Length1)
    ensures forall i, j :: 0 <= i < a.Length0 && 0 <= j < a.Length1 ==> m[i][j] == a[i, j]
  {
    seq(a.Length0, i requires 0 <= i < a.Length0 reads a => Row(a, i))
  }

  /** `a[r, c] = x`: one entry replaced. */
  method Put(a: array2<real>, r: nat, c: nat, x: real)
    requires r < a.Length0 && c < a.Length1
    modifies a
    ensures Contents(a) == Set(old(Contents(a)), r, c, x)
  {
    a[r, c] := x;
    Ext(Contents(a), Set(old(Contents(a)), r, c, x));
  }

  /** An all-zero `rows` by `cols` grid. */
  function Zeros(rows: nat, cols: nat): (m: Mat<real>)
    ensures IsMatrix(m, rows, cols)
    ensures forall i, j :: 0 <= i < rows && 0 <= j < cols ==> m[i][j] == 0.0
  {
    seq(rows, i => seq(cols, j => 0.0))
  }

  /** `m[r0:r1, c0:c1] = x`: the entries of a block set to `x`, every other
      entry and the shape kept. */
  function Filled(m: Mat<real>, r0: nat, r1: nat, c0: nat, c1: nat, x: real): (m': Mat<real>)
    ensures |m'| == |m| && forall i :: 0 <= i < |m| ==> |m'[i]| == |m[i]|
    ensures forall i, j :: 0 <= i < |m| && 0 <= j < |m[i]| ==>
              m'[i][j] == if r0 <= i < r1 && c0 <= j < c1 then x else m[i][j]
  {
    seq(|m|, i requires 0 <= i < |m| => seq(|m[i]|, j requires 0 <= j < |m[i]| => if r0 <= i < r1 && c0 <= j < c1 then x else m[i][j]))
  }

  /** `m[:, to] = m[:, from]`: one column overwritten with another. */
  function CopyColumn(m: Mat<real>, rows: nat, cols: nat, from: nat, to: nat): (m': Mat<real>)
    requires IsMatrix(m, rows, cols) && from < cols && to < cols
    ensures IsMatrix(m', rows, cols)
    ensures forall i, j :: 0 <= i < rows && 0 <= j < cols ==>
              m'[i][j] == if j == to then m[i][from] else m[i][j]
  {
    seq(rows, i requires 0 <= i < rows => m[i][to := m[i][from]])
  }

  /** `np.zeros((rows, cols))`. */
  method Zeroed(rows: nat, cols: nat) returns (a: array2<real>)
    ensures fresh(a) && Block(a, rows, cols) && Contents(a) == Zeros(rows, cols)
  {
    a := new real[rows, cols]((i, j) => 0.0);
    Ext(Contents(a), Zeros(rows, cols));
  }

  /** The fourteen `np.zeros` calls of lines 69-86. */
  method Allocate(nrow: nat, ncol: nat) returns (U: array2<real>, V: array2<real>, H: array2<real>, dUdT: array2<real>, dVdT: array2<real>, dHdT: array2<real>, dHdX: array2<real>, dHdY: array2<real>, dUdX: array2<real>, dVdY: array2<real>, rotV: array2<real>, rotU: array2<real>, tempU: array2<real>, tempV: array2<real>)
    ensures fresh(U) && fresh(V) && fresh(H) && fresh(dUdT) && fresh(dVdT) && fresh(dHdT) && fresh(dHdX)
    ensures fresh(dHdY) && fresh(dUdX) && fresh(dVdY) && fresh(rotV) && fresh(rotU) && fresh(tempU) && fresh(tempV)
    ensures Layout(nrow, ncol, U, V, H, dUdT, dVdT, dHdT, dHdX, dHdY, dUdX, dVdY, rotV, rotU, tempU, tempV)
    ensures Contents(U) == Zeros(nrow, ncol + 1)
    ensures Contents(V) == Zeros(nrow + 1, ncol)
    ensures Contents(H) == Zeros(nrow, ncol + 1)
    ensures Contents(dUdT) == Zeros(nrow, ncol)
    ensures Contents(dVdT) == Zeros(nrow, ncol)
    ensures Contents(dHdT) == Zeros(nrow, ncol)
    ensures Contents(dHdX) == Zeros(nrow, ncol + 1)
    ensures Contents(dHdY) == Zeros(nrow, ncol)
    ensures Contents(dUdX) == Zeros(nrow, ncol)
    ensures Contents(dVdY) == Zeros(nrow, ncol)
    ensures Contents(rotV) == Zeros(nrow, ncol)
    ensures Contents(rotU) == Zeros(nrow, ncol)
    ensures Contents(tempU) == Zeros(nrow, ncol)
    ensures Contents(tempV) == Zeros(nrow, ncol)
  {
    U := Zeroed(nrow, ncol + 1);
    V := Zeroed(nrow + 1, ncol);
    H := Zeroed(nrow, ncol + 1);
    dUdT := Zeroed(nrow, ncol);
    dVdT := Zeroed(nrow, ncol);
    dHdT := Zeroed(nrow, ncol);
    dHdX := Zeroed(nrow, ncol + 1);
    dHdY := Zeroed(nrow, ncol);
    dUdX := Zeroed(nrow, ncol);
    dVdY := Zeroed(nrow, ncol);
    rotV := Zeroed(nrow, ncol);
    rotU := Zeroed(nrow, ncol);
    tempU := Zeroed(nrow, ncol);
    tempV := Zeroed(nrow, ncol);
  }

  /** `a[r0:r1, c0:c1] = x`, with the block clipped to the array as numpy clips slices. */
  method Fill(a: array2<real>, r0: nat, r1: nat, c0: nat, c1: nat, x: real)
    modifies a
    ensures Contents(a) == Filled(old(Contents(a)), r0, r1, c0, c1, x)
  {
    var i := r0;
    while i < r1 && i < a.Length0
      invariant i == r0 || (r0 < i <= r1 && i <= a.Length0)
      invariant forall p, q :: 0 <= p < a.Length0 && 0 <= q < a.Length1 ==>
                  a[p, q] == if r0 <= p < i && c0 <= q < c1 then x else old(a[p, q])
    {
      var j := c0;
      while j < c1 && j < a.Length1
        invariant j == c0 || (c0 < j <= c1 && j <= a.Length1)
        invariant forall p, q :: 0 <= p < a.Length0 && 0 <= q < a.Length1 ==>
                    a[p, q] == if (r0 <= p < i && c0 <= q < c1) || (p == i && c0 <= q < j) then x else old(a[p, q])
      {
        a[i, j] := x;
        j := j + 1;
      }
      i := i + 1;
    }
    Ext(Contents(a), Filled(old(Contents(a)), r0, r1, c0, c1, x));
  }

  /** `a[:, to] = a[:, from]`. */
  method CopyColumnOf(a: array2<real>, from: nat, to: nat)
    requires from < a.Length1 && to < a.Length1
    modifies a
    ensures Contents(a) == CopyColumn(old(Contents(a)), a.Length0, a.Length1, from, to)
  {
    var i := 0;
    while i < a.Length0
      invariant i <= a.Length0
      invariant forall p, q :: 0 <= p < a.Length0 && 0 <= q < a.Length1 ==>
                  a[p, q] == if p < i && q == to then old(a[p, from]) else old(a[p, q])
    {
      a[i, to] := a[i, from];
      i := i + 1;
    }
    Ext(Contents(a), CopyColumn(old(Contents(a)), a.Length0, a.Length1, from, to));
  }

  /** The contents of the fourteen arrays. */
  datatype Fields = Fields(
    U: Mat<real>, V: Mat<real>, H: Mat<real>,
    dUdT: Mat<real>, dVdT: Mat<real>, dHdT: Mat<real>,
    dHdX: Mat<real>, dHdY: Mat<real>, dUdX: Mat<real>, dVdY: Mat<real>,
    rotV: Mat<real>, rotU: Mat<real>, tempU: Mat<real>, tempV: Mat<real>)

  ghost predicate Shaped(cfg: Config, f: Fields) {
      && IsMatrix(f.U, cfg.nrow, cfg.ncol + 1)
      && IsMatrix(f.V, cfg.nrow + 1, cfg.ncol)
      && IsMatrix(f.H, cfg.nrow, cfg.ncol + 1)
      && IsMatrix(f.dUdT, cfg.nrow, cfg.ncol)
      && IsMatrix(f.dVdT, cfg.nrow, cfg.ncol)
      && IsMatrix(f.dHdT, cfg.nrow, cfg.ncol)
      && IsMatrix(f.dHdX, cfg.nrow, cfg.ncol + 1)
      && IsMatrix(f.dHdY, cfg.nrow, cfg.ncol)
      && IsMatrix(f.dUdX, cfg.nrow, cfg.ncol)
      && IsMatrix(f.dVdY, cfg.nrow, cfg.ncol)
      && IsMatrix(f.rotV, cfg.nrow, cfg.ncol)
      && IsMatrix(f.rotU, cfg.nrow, cfg.ncol)
      && IsMatrix(f.tempU, cfg.nrow, cfg.ncol)
      && IsMatrix(f.tempV, cfg.nrow, cfg.ncol)
  }

  /** The grid the arrays make up: cell `(i, j)` holds entry `[i, j]` of
      every array that reaches it, and zero for the others. */
  function Assemble(cfg: Config, f: Fields): (g: Grid)
    requires Shaped(cfg, f)
    ensures WellShaped(cfg, g) && Padded(cfg, g)
  {
    var n, m := cfg.nrow, cfg.ncol;
    seq(n + 1, i requires 0 <= i <= n => seq(m + 1, j requires 0 <= j <= m =>
        var inner := i < n && j < m;
        Cell(
          if i < n then f.U[i][j] else 0.0,
          if j < m then f.V[i][j] else 0.0,
          if i < n then f.H[i][j] else 0.0,
          if inner then f.dUdT[i][j] else 0.0,
          if inner then f.dVdT[i][j] else 0.0,
          if inner then f.dHdT[i][j] else 0.0,
          if i < n then f.dHdX[i][j] else 0.0,
          if inner then f.dHdY[i][j] else 0.0,
          if inner then f.dUdX[i][j] else 0.0,
          if inner then f.dVdY[i][j] else 0.0,
          if inner then f.rotV[i][j] else 0.0,
          if inner then f.rotU[i][j] else 0.0,
          if inner then f.tempU[i][j] else 0.0,
          if inner then f.tempV[i][j] else 0.0)))
  }

  /** `H` after the perturbation block of lines 88-94, from `h`, with
      `midCell = int(ncol/2)`; numpy clips the slice `0:midCell` to the
      array, as `Filled` does. */
  function Perturbed(cfg: Config, h: Mat<real>): (h': Mat<real>)
    requires ValidConfig(cfg) && IsMatrix(h, cfg.nrow, cfg.ncol + 1)
    ensures IsMatrix(h', cfg.nrow, cfg.ncol + 1)
  {
    var midCell := cfg.ncol / 2;
    match cfg.initialPerturbation
    case Tower => Set(h, midCell, midCell, 1.0)
    case NSGradient => Filled(h, 0, midCell, 0, cfg.ncol + 1, 0.1)
    case EWGradient => Filled(h, 0, cfg.nrow, 0, midCell, 0.1)
    case NoPerturbation => h
  }

  /** The arrays right after allocation and the perturbation (lines 69-94)
      make up the model's initial grid: every array is zero except `H`. */
  lemma AssembleInitial(cfg: Config, f: Fields)
    requires ValidConfig(cfg)
    requires var n, m := cfg.nrow, cfg.ncol;
      && f.U == Zeros(n, m + 1) && f.V == Zeros(n + 1, m) && f.H == Perturbed(cfg, Zeros(n, m + 1))
      && f.dUdT == Zeros(n, m) && f.dVdT == Zeros(n, m) && f.dHdT == Zeros(n, m)
      && f.dHdX == Zeros(n, m + 1) && f.dHdY == Zeros(n, m) && f.dUdX == Zeros(n, m) && f.dVdY == Zeros(n, m)
      && f.rotV == Zeros(n, m) && f.rotU == Zeros(n, m) && f.tempU == Zeros(n, m) && f.tempV == Zeros(n, m)
    ensures Shaped(cfg, f) && Assemble(cfg, f) == Initial(cfg)
  {
    Ext(Assemble(cfg, f), Initial(cfg));
  }

  /** The arrays after the boundary block of animStep (lines 100-110). */
  function BoundaryFields(cfg: Config, f: Fields): (f': Fields)
    requires Shaped(cfg, f)
    ensures Shaped(cfg, f')
  {
    var n, m := cfg.nrow, cfg.ncol;
    var v := Filled(Filled(f.V, n, n + 1, 0, m, 0.0), 0, 1, 0, m, 0.0);
    if cfg.horizontalWrap then f.(V := v, U := CopyColumn(f.U, n, m + 1, 0, m), H := CopyColumn(f.H, n, m + 1, 0, m))
    else f.(V := v, U := Filled(Filled(f.U, 0, n, 0, 1, 0.0), 0, n, m, m + 1, 0.0))
  }

  /** The boundary block of animStep on `U`, `V` and `H`
      (shallow_water_simulation.py:100-110). */
  method ApplyBoundary(cfg: Config, U: array2<real>, V: array2<real>, H: array2<real>)
    requires Block(U, cfg.nrow, cfg.ncol + 1) && Block(V, cfg.nrow + 1, cfg.ncol) && Block(H, cfg.nrow, cfg.ncol + 1)
    requires U != V && U != H && V != H
    modifies U, V, H
    ensures Contents(V) == Filled(Filled(old(Contents(V)), cfg.nrow, cfg.nrow + 1, 0, cfg.ncol, 0.0), 0, 1, 0, cfg.ncol, 0.0)
    ensures cfg.horizontalWrap ==> Contents(U) == CopyColumn(old(Contents(U)), cfg.nrow, cfg.ncol + 1, 0, cfg.ncol)
    ensures cfg.horizontalWrap ==> Contents(H) == CopyColumn(old(Contents(H)), cfg.nrow, cfg.ncol + 1, 0, cfg.ncol)
    ensures !cfg.horizontalWrap ==> Contents(U) == Filled(Filled(old(Contents(U)), 0, cfg.nrow, 0, 1, 0.0), 0, cfg.nrow, cfg.ncol, cfg.ncol + 1, 0.0)
    ensures !cfg.horizontalWrap ==> Contents(H) == old(Contents(H))
  {
    Fill(V, cfg.nrow, cfg.nrow + 1, 0, cfg.ncol, 0.0);
    Fill(V, 0, 1, 0, cfg.ncol, 0.0);
    if cfg.horizontalWrap {
      CopyColumnOf(U, 0, cfg.ncol);
      CopyColumnOf(H, 0, cfg.ncol);
    } else {
      Fill(U, 0, cfg.nrow, 0, 1, 0.0);
      Fill(U, 0, cfg.nrow, cfg.ncol, cfg.ncol + 1, 0.0);
    }
  }

  /** The boundary block on the arrays is the model's boundary block on the
      grid they make up: `f'` holds `f` with `V`, `U` and `H` changed as the
      block changes them and the other arrays kept. */
  lemma AssembleBoundary(cfg: Config, f: Fields, f': Fields)
    requires Shaped(cfg, f)
    requires f'.V == Filled(Filled(f.V, cfg.nrow, cfg.nrow + 1, 0, cfg.ncol, 0.0), 0, 1, 0, cfg.ncol, 0.0)
    requires cfg.horizontalWrap ==> f'.U == CopyColumn(f.U, cfg.nrow, cfg.ncol + 1, 0, cfg.ncol)
    requires cfg.horizontalWrap ==> f'.H == CopyColumn(f.H, cfg.nrow, cfg.ncol + 1, 0, cfg.ncol)
    requires !cfg.horizontalWrap ==> f'.U == Filled(Filled(f.U, 0, cfg.nrow, 0, 1, 0.0), 0, cfg.nrow, cfg.ncol, cfg.ncol + 1, 0.0)
    requires !cfg.horizontalWrap ==> f'.H == f.H
    requires f'.dUdT == f.dUdT && f'.dVdT == f.dVdT && f'.dHdT == f.dHdT && f'.dHdX == f.dHdX
    requires f'.dHdY == f.dHdY && f'.dUdX == f.dUdX && f'.dVdY == f.dVdY
    requires f'.rotV == f.rotV && f'.rotU == f.rotU && f'.tempU == f.tempU && f'.tempV == f.tempV
    ensures Shaped(cfg, f') && Assemble(cfg, f') == Boundary(cfg, Assemble(cfg, f))
  {
    assert f' == BoundaryFields(cfg, f);
    var a, b := Assemble(cfg, f'), Boundary(cfg, Assemble(cfg, f));
    forall i, j | 0 <= i < |a| && 0 <= j < |a[i]|
      ensures a[i][j] == b[i][j]
    {
      BoundaryCellFields(cfg, f, i, j);
    }
    Ext(a, b);
  }

  /** One cell of `AssembleBoundary`. */
  lemma BoundaryCellFields(cfg: Config, f: Fields, i: nat, j: nat)
    requires Shaped(cfg, f) && i <= cfg.nrow && j <= cfg.ncol
    ensures Assemble(cfg, BoundaryFields(cfg, f))[i][j] == Boundary(cfg, Assemble(cfg, f))[i][j]
  {
  }

  /** Entry `[r, c]` of every array replaced by the matching field of `e`. */
  function SetAll(cfg: Config, f: Fields, r: nat, c: nat, e: Cell): (f': Fields)
    requires Shaped(cfg, f) && Interior(cfg, r, c)
    ensures Shaped(cfg, f')
  {
    Fields(
      Set(f.U, r, c, e.U),
      Set(f.V, r, c, e.V),
      Set(f.H, r, c, e.H),
      Set(f.dUdT, r, c, e.dUdT),
      Set(f.dVdT, r, c, e.dVdT),
      Set(f.dHdT, r, c, e.dHdT),
      Set(f.dHdX, r, c, e.dHdX),
      Set(f.dHdY, r, c, e.dHdY),
      Set(f.dUdX, r, c, e.dUdX),
      Set(f.dVdY, r, c, e.dVdY),
      Set(f.rotV, r, c, e.rotV),
      Set(f.rotU, r, c, e.rotU),
      Set(f.tempU, r, c, e.tempU),
      Set(f.tempV, r, c, e.tempV))
  }

  /** Writing entry `[r, c]` of every array writes cell `(r, c)` of the grid
      and nothing else. */
  lemma AssembleSetAll(cfg: Config, f: Fields, r: nat, c: nat, e: Cell)
    requires Shaped(cfg, f) && Interior(cfg, r, c)
    ensures Assemble(cfg, SetAll(cfg, f, r, c, e)) == Set(Assemble(cfg, f), r, c, e)
  {
    Ext(Assemble(cfg, SetAll(cfg, f, r, c, e)), Set(Assemble(cfg, f), r, c, e));
  }

  /** The stencil of cell `(r, c)`, read off the arrays' contents. */
  function StencilOf(cfg: Config, f: Fields, r: nat, c: nat): Stencil
    requires Shaped(cfg, f) && Interior(cfg, r, c)
  {
    var pr, pc := Prev(r, cfg.nrow), Prev(c, cfg.ncol);
    Stencil(f.U[r][c], f.U[r][c + 1], f.V[r][c], f.V[r + 1][c],
            f.H[r][c], f.H[r][Prev(c, cfg.ncol + 1)], f.H[pr][c],
            f.tempU[r][c], f.tempU[pr][c], f.tempV[r][c], f.tempV[r][pc])
  }

  /** Writing into every array at `[r, c]` the cell that the loop body
      computes from the stencil read off the arrays is the model's update of
      cell `(r, c)` of the grid they make up. */
  lemma StepFields(cfg: Config, prof: Profiles, f: Fields, r: nat, c: nat)
    requires ValidConfig(cfg) && Fits(cfg, prof) && Shaped(cfg, f) && Interior(cfg, r, c)
    ensures Assemble(cfg, SetAll(cfg, f, r, c, Combine(cfg.interpolateRotation, prof.rotConst[r], prof.windU[r], StencilOf(cfg, f, r, c),
                                                       Prev(r, cfg.nrow) == r, Prev(c, cfg.ncol) == c)))
         == CellStep(cfg, prof, Assemble(cfg, f), r, c)
  {
    assert StencilOf(cfg, f, r, c) == StencilAt(cfg, Assemble(cfg, f), r, c);
    AssembleSetAll(cfg, f, r, c, Combine(cfg.interpolateRotation, prof.rotConst[r], prof.windU[r], StencilOf(cfg, f, r, c),
                                         Prev(r, cfg.nrow) == r, Prev(c, cfg.ncol) == c));
  }
}
