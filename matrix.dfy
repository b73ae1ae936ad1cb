/** Rectangular grids as sequences of rows: the value-level view of a 2-D array. */
module Matrix {

  type Mat<T> = seq<seq<T>>

  /** `m` has exactly `rows` rows of `cols` entries each. */
  ghost predicate IsMatrix<T>(m: Mat<T>, rows: nat, cols: nat) {
    |m| == rows && forall i :: 0 <= i < rows ==> |m[i]| == cols
  }

  /** `m[i, j] = x`: one entry replaced, the shape and every other entry kept. */
  function Set<T>(m: Mat<T>, i: nat, j: nat, x: T): (r: Mat<T>)
    requires i < |m| && j < |m[i]|
    ensures |r| == |m| && forall k :: 0 <= k < |m| ==> |r[k]| == |m[k]|
    ensures r[i][j] == x
    ensures forall a, b :: 0 <= a < |m| && 0 <= b < |m[a]| && (a != i || b != j) ==> r[a][b] == m[a][b]
  {
    m[i := m[i][j := x]]
  }

  /** Two grids of the same shape with the same entries are equal. */
  lemma Ext<T>(m: Mat<T>, n: Mat<T>)
    requires |m| == |n| && forall i :: 0 <= i < |m| ==> |m[i]| == |n[i]|
    requires forall i, j :: 0 <= i < |m| && 0 <= j < |m[i]| ==> m[i][j] == n[i][j]
    ensures m == n
  {
    forall i | 0 <= i < |m|
      ensures m[i] == n[i]
    {
      assert forall j :: 0 <= j < |m[i]| ==> m[i][j] == n[i][j];
    }
  }
}
