/**
 * Dense real vectors and matrices, standing for the numpy arrays the
 * optimiser handles. A column vector of shape (n, 1) is a `seq<real>` of
 * length n; a 2-d array is a row-major `Matrix`.
 */
module Vectors {

  datatype Mat = Mat(rows: nat, cols: nat, data: seq<seq<real>>) {
    predicate Valid() {
      |data| == rows && forall i :: 0 <= i < rows ==> |data[i]| == cols
    }
  }

  /** A rectangular 2-d array. */
  type Matrix = m: Mat | m.Valid() witness Mat(0, 0, [])

  function Zeros(n: nat): (z: seq<real>)
    ensures |z| == n && forall i :: 0 <= i < n ==> z[i] == 0.0
  {
    seq(n, _ => 0.0)
  }

  /** `np.zeros((r, c))`. */
  function ZeroMatrix(r: nat, c: nat): (m: Matrix)
    ensures m.rows == r && m.cols == c
    ensures forall i, j :: 0 <= i < r && 0 <= j < c ==> m.data[i][j] == 0.0
  {
    Mat(r, c, seq(r, _ => Zeros(c)))
  }

  /** `np.expand_dims(v, 1)`: a 1-d array of length L as an L x 1 matrix. */
  function ColumnMatrix(v: seq<real>): (m: Matrix)
    ensures m.rows == |v| && m.cols == 1
    ensures forall i :: 0 <= i < |v| ==> m.data[i] == [v[i]]
  {
    Mat(|v|, 1, seq(|v|, i requires 0 <= i < |v| => [v[i]]))
  }

  function Transpose(m: Matrix): (t: Matrix)
    ensures t.rows == m.cols && t.cols == m.rows
    ensures forall i, j :: 0 <= i < t.rows && 0 <= j < t.cols ==> t.data[i][j] == m.data[j][i]
  {
    Mat(m.cols, m.rows,
        seq(m.cols, i requires 0 <= i < m.cols =>
          seq(m.rows, j requires 0 <= j < m.rows => m.data[j][i])))
  }

  /** `m[:, j]`. */
  function ColumnOf(m: Matrix, j: nat): (c: seq<real>)
    requires j < m.cols
    ensures |c| == m.rows && forall i :: 0 <= i < m.rows ==> c[i] == m.data[i][j]
  {
    seq(m.rows, i requires 0 <= i < m.rows => m.data[i][j])
  }

  function Sum(s: seq<real>): real
  {
    if s == [] then 0.0 else Sum(s[..|s| - 1]) + s[|s| - 1]
  }

  /** `np.sum(m, axis = 1)`. */
  function RowSums(m: Matrix): (r: seq<real>)
    ensures |r| == m.rows && forall i :: 0 <= i < m.rows ==> r[i] == Sum(m.data[i])
  {
    seq(m.rows, i requires 0 <= i < m.rows => Sum(m.data[i]))
  }

  function Dot(a: seq<real>, b: seq<real>): real
    requires |a| == |b|
  {
    if a == [] then 0.0 else Dot(a[..|a| - 1], b[..|b| - 1]) + a[|a| - 1] * b[|b| - 1]
  }

  /** The matrix-vector product `m * x`. */
  function MatVec(m: Matrix, x: seq<real>): (y: seq<real>)
    requires |x| == m.cols
    ensures |y| == m.rows && forall i :: 0 <= i < m.rows ==> y[i] == Dot(m.data[i], x)
  {
    seq(m.rows, i requires 0 <= i < m.rows => Dot(m.data[i], x))
  }

  function VecAdd(a: seq<real>, b: seq<real>): (c: seq<real>)
    requires |a| == |b|
    ensures |c| == |a| && forall i :: 0 <= i < |a| ==> c[i] == a[i] + b[i]
  {
    seq(|a|, i requires 0 <= i < |a| => a[i] + b[i])
  }

  function VecSub(a: seq<real>, b: seq<real>): (c: seq<real>)
    requires |a| == |b|
    ensures |c| == |a| && forall i :: 0 <= i < |a| ==> c[i] == a[i] - b[i]
  {
    seq(|a|, i requires 0 <= i < |a| => a[i] - b[i])
  }

  function VecScale(c: real, a: seq<real>): (r: seq<real>)
    ensures |r| == |a| && forall i :: 0 <= i < |a| ==> r[i] == c * a[i]
  {
    seq(|a|, i requires 0 <= i < |a| => c * a[i])
  }

  /** Sum of squares, `cvxpy.sum_squares`. */
  function SumSq(s: seq<real>): real
  {
    if s == [] then 0.0 else SumSq(s[..|s| - 1]) + s[|s| - 1] * s[|s| - 1]
  }

  function Abs(x: real): real { if x < 0.0 then -x else x }

  /** The 1-norm. */
  function SumAbs(s: seq<real>): real
  {
    if s == [] then 0.0 else SumAbs(s[..|s| - 1]) + Abs(s[|s| - 1])
  }

  /** First differences, `cvxpy.diff`: one element shorter than its input. */
  function Diffs(s: seq<real>): (d: seq<real>)
    ensures |d| == if |s| == 0 then 0 else |s| - 1
    ensures forall i :: 0 <= i < |d| ==> d[i] == s[i + 1] - s[i]
  {
    if |s| == 0 then [] else seq(|s| - 1, i requires 0 <= i < |s| - 1 => s[i + 1] - s[i])
  }

  /** `np.max` of a non-empty array. */
  function MaxOf(s: seq<real>): (m: real)
    requires |s| > 0
    ensures (exists i :: 0 <= i < |s| && s[i] == m) && forall i :: 0 <= i < |s| ==> s[i] <= m
  {
    if |s| == 1 then s[0]
    else
      var m' := MaxOf(s[..|s| - 1]);
      assert forall i :: 0 <= i < |s| - 1 ==> s[..|s| - 1][i] == s[i];
      if s[|s| - 1] > m' then s[|s| - 1] else m'
  }

  /** The element-wise sum of a list of vectors of length n, starting from `np.zeros(n)`. */
  function SumVecs(vs: seq<seq<real>>, n: nat): (s: seq<real>)
    requires forall i :: 0 <= i < |vs| ==> |vs[i]| == n
    ensures |s| == n
  {
    if vs == [] then Zeros(n) else VecAdd(SumVecs(vs[..|vs| - 1], n), vs[|vs| - 1])
  }

  /** The sum of the first q vectors adds the q-th to the sum of the first q - 1. */
  lemma SumVecsPrefix(vs: seq<seq<real>>, q: nat, n: nat)
    requires forall i :: 0 <= i < |vs| ==> |vs[i]| == n
    requires 0 < q <= |vs|
    ensures SumVecs(vs[..q], n) == VecAdd(SumVecs(vs[..q - 1], n), vs[q - 1])
  {
    assert vs[..q][..q - 1] == vs[..q - 1];
  }
}
