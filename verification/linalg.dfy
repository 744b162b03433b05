/** Dense vectors and matrices over the reals, with just the products the
    bandit's conjugate update needs. A matrix is a sequence of rows. */
module LinAlg {
  import opened Numerics

  type Vector = seq<real>
  type Matrix = seq<Vector>

  predicate IsMatrix(m: Matrix, rows: nat, cols: nat) {
    |m| == rows && forall i :: 0 <= i < rows ==> |m[i]| == cols
  }

  predicate IsSquare(m: Matrix, d: nat) {
    IsMatrix(m, d, d)
  }

  function ZeroMatrix(d: nat): (m: Matrix)
    ensures IsSquare(m, d) && forall i, j :: 0 <= i < d && 0 <= j < d ==> m[i][j] == 0.0
  {
    seq(d, i => Zeros(d))
  }

  /** `np.eye(d)`. */
  function Identity(d: nat): (m: Matrix)
    ensures IsSquare(m, d)
    ensures forall i, j :: 0 <= i < d && 0 <= j < d ==> m[i][j] == if i == j then 1.0 else 0.0
  {
    seq(d, i => seq(d, j => if i == j then 1.0 else 0.0))
  }

  /** `np.diag(m)` of a square matrix. */
  function Diagonal(m: Matrix): (v: Vector)
    requires IsSquare(m, |m|)
    ensures |v| == |m| && forall i :: 0 <= i < |m| ==> v[i] == m[i][i]
  {
    seq(|m|, i requires 0 <= i < |m| => m[i][i])
  }

  function Dot(a: Vector, b: Vector): real
    requires |a| == |b|
  {
    if |a| == 0 then 0.0 else a[0] * b[0] + Dot(a[1..], b[1..])
  }

  function VecAdd(a: Vector, b: Vector): (r: Vector)
    requires |a| == |b|
    ensures |r| == |a| && forall i :: 0 <= i < |a| ==> r[i] == a[i] + b[i]
  {
    seq(|a|, i requires 0 <= i < |a| => a[i] + b[i])
  }

  function VecScale(c: real, a: Vector): (r: Vector)
    ensures |r| == |a| && forall i :: 0 <= i < |a| ==> r[i] == c * a[i]
  {
    seq(|a|, i requires 0 <= i < |a| => c * a[i])
  }

  /** The matrix-vector product: entry i is row i dotted with v. */
  function MatVec(m: Matrix, v: Vector): (r: Vector)
    requires IsMatrix(m, |m|, |v|)
    ensures |r| == |m| && forall i :: 0 <= i < |m| ==> r[i] == Dot(m[i], v)
  {
    seq(|m|, i requires 0 <= i < |m| => Dot(m[i], v))
  }

  function MatAdd(a: Matrix, b: Matrix): (r: Matrix)
    requires |a| == |b| && forall i :: 0 <= i < |a| ==> |a[i]| == |b[i]|
    ensures |r| == |a| && forall i :: 0 <= i < |a| ==> r[i] == VecAdd(a[i], b[i])
  {
    seq(|a|, i requires 0 <= i < |a| => VecAdd(a[i], b[i]))
  }

  function MatScale(c: real, m: Matrix): (r: Matrix)
    ensures |r| == |m| && forall i :: 0 <= i < |m| ==> r[i] == VecScale(c, m[i])
  {
    seq(|m|, i requires 0 <= i < |m| => VecScale(c, m[i]))
  }

  /** The outer product a aᵀ. */
  function Outer(a: Vector): (m: Matrix)
    ensures IsSquare(m, |a|) && forall i :: 0 <= i < |a| ==> m[i] == VecScale(a[i], a)
  {
    seq(|a|, i requires 0 <= i < |a| => VecScale(a[i], a))
  }

  /** `Phi.T @ Phi` for the matrix whose rows are `rows`: the sum of the
      rows' outer products. */
  function Gram(rows: seq<Vector>, d: nat): (m: Matrix)
    requires forall k :: 0 <= k < |rows| ==> |rows[k]| == d
    ensures IsSquare(m, d)
  {
    if |rows| == 0 then ZeroMatrix(d) else MatAdd(Outer(rows[0]), Gram(rows[1..], d))
  }

  /** `Phi.T @ r`: the rows weighted by r and summed. */
  function WeightedRowSum(rows: seq<Vector>, r: seq<real>, d: nat): (v: Vector)
    requires |r| == |rows| && forall k :: 0 <= k < |rows| ==> |rows[k]| == d
    ensures |v| == d
  {
    if |rows| == 0 then Zeros(d) else VecAdd(VecScale(r[0], rows[0]), WeightedRowSum(rows[1..], r[1..], d))
  }

  lemma VecScaleTail(c: real, a: Vector)
    requires |a| > 0
    ensures VecScale(c, a)[1..] == VecScale(c, a[1..])
  {
    var l, r := VecScale(c, a)[1..], VecScale(c, a[1..]);
    forall i | 0 <= i < |l| ensures l[i] == r[i] {
      assert l[i] == c * a[i + 1];
      assert r[i] == c * a[1..][i];
    }
  }

  lemma {:induction false} DotZeroRight(a: Vector)
    ensures Dot(a, Zeros(|a|)) == 0.0
  {
    if |a| > 0 {
      assert Zeros(|a|)[1..] == Zeros(|a| - 1);
      DotZeroRight(a[1..]);
    }
  }

  /** The dot product distributes over a sum on the right. */
  lemma {:induction false} DotAddRight(a: Vector, u: Vector, v: Vector)
    requires |a| == |u| == |v|
    ensures Dot(a, VecAdd(u, v)) == Dot(a, u) + Dot(a, v)
  {
    if |a| > 0 {
      assert VecAdd(u, v)[1..] == VecAdd(u[1..], v[1..]);
      DotAddRight(a[1..], u[1..], v[1..]);
      assert a[0] * (u[0] + v[0]) == a[0] * u[0] + a[0] * v[0];
    }
  }

  /** A scalar factor comes out of the dot product on the right. */
  lemma {:induction false} DotScaleRight(c: real, a: Vector, v: Vector)
    requires |a| == |v|
    ensures Dot(a, VecScale(c, v)) == c * Dot(a, v)
  {
    if |a| > 0 {
      VecScaleTail(c, v);
      DotScaleRight(c, a[1..], v[1..]);
      assert a[0] * (c * v[0]) + c * Dot(a[1..], v[1..]) == c * (a[0] * v[0] + Dot(a[1..], v[1..]));
    }
  }

  /** Matrix-vector products are linear in the vector. */
  lemma MatVecAddRight(m: Matrix, u: Vector, v: Vector)
    requires |u| == |v| && IsMatrix(m, |m|, |u|)
    ensures MatVec(m, VecAdd(u, v)) == VecAdd(MatVec(m, u), MatVec(m, v))
  {
    forall i | 0 <= i < |m| ensures Dot(m[i], VecAdd(u, v)) == Dot(m[i], u) + Dot(m[i], v) {
      DotAddRight(m[i], u, v);
    }
  }

  lemma MatVecScaleRight(m: Matrix, c: real, v: Vector)
    requires IsMatrix(m, |m|, |v|)
    ensures MatVec(m, VecScale(c, v)) == VecScale(c, MatVec(m, v))
  {
    var l, r := MatVec(m, VecScale(c, v)), VecScale(c, MatVec(m, v));
    forall i | 0 <= i < |m| ensures l[i] == r[i] {
      DotScaleRight(c, m[i], v);
      assert r[i] == c * MatVec(m, v)[i];
    }
  }

  /** `np.eye(d) * 1.0` is `np.eye(d)`. */
  lemma MatScaleOne(m: Matrix)
    ensures MatScale(1.0, m) == m
  {
    forall i | 0 <= i < |m| ensures VecScale(1.0, m[i]) == m[i] {
    }
  }
}
