/** Dense real matrices as sequences of rows, with the few operations the
    determinant code needs: columns, column gathers and the statement that one
    matrix is the (right) inverse of another. */
module Matrices {
  import opened RealSeq

  type Matrix = seq<seq<real>>

  predicate IsMatrix(m: Matrix, rows: nat, cols: nat) {
    |m| == rows && forall i :: 0 <= i < rows ==> |m[i]| == cols
  }

  /** The column count of a matrix with at least one row (0 for an empty one). */
  function Cols(m: Matrix): nat {
    if |m| == 0 then 0 else |m[0]|
  }

  /** `m[:, j]`. */
  function Column(m: Matrix, j: nat): (c: seq<real>)
    requires forall i :: 0 <= i < |m| ==> j < |m[i]|
    ensures |c| == |m|
  {
    seq(|m|, i requires 0 <= i < |m| => m[i][j])
  }

  /** `jnp.take(m, cols, axis=1)`: the columns `cols` of `m`, in that order. */
  function TakeColumns(m: Matrix, cols: seq<nat>): (r: Matrix)
    requires forall i :: 0 <= i < |m| ==> InRange(cols, |m[i]|)
    ensures IsMatrix(r, |m|, |cols|)
  {
    seq(|m|, i requires 0 <= i < |m| => Take(m[i], cols))
  }

  /** `inv` is a right inverse of the n-by-n matrix `a`: a * inv == I. */
  ghost predicate IsRightInverse(a: Matrix, inv: Matrix, n: nat)
    requires IsMatrix(a, n, n) && IsMatrix(inv, n, n)
  {
    forall i, j :: 0 <= i < n && 0 <= j < n ==>
      Dot(a[i], Column(inv, j)) == if i == j then 1.0 else 0.0
  }

  /** `x @ m` for a row vector `x`. */
  function RowTimes(x: seq<real>, m: Matrix, cols: nat): (r: seq<real>)
    requires IsMatrix(m, |x|, cols)
    ensures |r| == cols
  {
    seq(cols, j requires 0 <= j < cols => Dot(x, Column(m, j)))
  }
}
