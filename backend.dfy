/**
 * The numeric tensor backend the regularizers are written against, modelled
 * over exact reals: dense tensors, the element-wise operations (abs, square,
 * scaling by a scalar), sum-reduction, and the matrix operations (transpose,
 * matrix product, matrix-vector product, dot product, all-ones vector).
 *
 * Column vectors (tensors of shape [n, 1]) are represented as `seq<real>`,
 * and a 1x1 product of a row and a column as a `real`.
 */
module Backend {

  /** A dense tensor: its shape and its elements in row-major order. */
  datatype RawTensor = RawTensor(shape: seq<nat>, data: seq<real>)

  /** The number of elements of a tensor of the given shape. */
  function Size(shape: seq<nat>): nat
  {
    if |shape| == 0 then 1 else shape[0] * Size(shape[1..])
  }

  /** A tensor whose element count agrees with its shape. */
  type Tensor = t: RawTensor | |t.data| == Size(t.shape) witness RawTensor([], [0.0])

  // ---------------------------------------------------------------------
  // Element-wise operations and reduction

  function Abs(r: real): real
  {
    if r < 0.0 then -r else r
  }

  /** K.abs */
  function AbsAll(xs: seq<real>): seq<real>
  {
    seq(|xs|, i requires 0 <= i < |xs| => Abs(xs[i]))
  }

  /** K.square */
  function SquareAll(xs: seq<real>): seq<real>
  {
    seq(|xs|, i requires 0 <= i < |xs| => xs[i] * xs[i])
  }

  /** A scalar times a tensor. */
  function ScaleAll(c: real, xs: seq<real>): seq<real>
  {
    seq(|xs|, i requires 0 <= i < |xs| => c * xs[i])
  }

  /** K.sum over every element. */
  function Sum(xs: seq<real>): real
    decreases |xs|
  {
    if |xs| == 0 then 0.0 else xs[0] + Sum(xs[1..])
  }

  /** Summing a scaled tensor is scaling its sum. */
  lemma {:induction false} SumScale(c: real, xs: seq<real>)
    ensures Sum(ScaleAll(c, xs)) == c * Sum(xs)
    decreases |xs|
  {
    if |xs| > 0 {
      assert forall i :: 0 <= i < |xs| - 1 ==> ScaleAll(c, xs)[1..][i] == ScaleAll(c, xs[1..])[i];
      assert ScaleAll(c, xs)[1..] == ScaleAll(c, xs[1..]);
      SumScale(c, xs[1..]);
    }
  }

  /** A sum of non-negative elements is non-negative. */
  lemma {:induction false} SumNonNegative(xs: seq<real>)
    requires forall i :: 0 <= i < |xs| ==> 0.0 <= xs[i]
    ensures 0.0 <= Sum(xs)
    decreases |xs|
  {
    if |xs| > 0 {
      SumNonNegative(xs[1..]);
    }
  }

  /** Both element-wise penalties are sums of non-negative terms. */
  lemma {:induction false} AbsAndSquareSumsNonNegative(xs: seq<real>)
    ensures 0.0 <= Sum(AbsAll(xs)) && 0.0 <= Sum(SquareAll(xs))
  {
    SumNonNegative(AbsAll(xs));
    SumNonNegative(SquareAll(xs));
  }

  // ---------------------------------------------------------------------
  // Matrices and vectors

  type Matrix = seq<seq<real>>

  /** Every row of `m` has `cols` entries. */
  predicate IsMatrix(m: Matrix, cols: nat)
  {
    forall i :: 0 <= i < |m| ==> |m[i]| == cols
  }

  /** The matrix product of a row with a column. */
  function Dot(a: seq<real>, b: seq<real>): real
    requires |a| == |b|
    decreases |a|
  {
    if |a| == 0 then 0.0 else a[0] * b[0] + Dot(a[1..], b[1..])
  }

  /** K.ones([n, 1]) */
  function Ones(n: nat): seq<real>
  {
    seq(n, i => 1.0)
  }

  function Column(m: Matrix, cols: nat, j: nat): seq<real>
    requires IsMatrix(m, cols) && j < cols
  {
    seq(|m|, i requires 0 <= i < |m| => m[i][j])
  }

  /** K.transpose of a matrix with `cols` columns. */
  function Transpose(m: Matrix, cols: nat): (t: Matrix)
    requires IsMatrix(m, cols)
    ensures |t| == cols && IsMatrix(t, |m|)
  {
    seq(cols, j requires 0 <= j < cols => Column(m, cols, j))
  }

  /** K.dot of two matrices; `b` has `cols` columns. */
  function MatMul(a: Matrix, b: Matrix, cols: nat): (c: Matrix)
    requires IsMatrix(a, |b|) && IsMatrix(b, cols)
    ensures |c| == |a| && IsMatrix(c, cols)
  {
    seq(|a|, i requires 0 <= i < |a| =>
      seq(cols, j requires 0 <= j < cols => Dot(a[i], Column(b, cols, j))))
  }

  /** K.dot of a matrix with a column vector. */
  function MatVec(a: Matrix, v: seq<real>): (w: seq<real>)
    requires IsMatrix(a, |v|)
    ensures |w| == |a|
  {
    seq(|a|, i requires 0 <= i < |a| => Dot(a[i], v))
  }

  /** The vector c * r + u. */
  function AddScaled(c: real, r: seq<real>, u: seq<real>): seq<real>
    requires |r| == |u|
  {
    seq(|r|, i requires 0 <= i < |r| => c * r[i] + u[i])
  }

  // ---------------------------------------------------------------------
  // Lemmas about the dot product

  lemma {:induction false} DotCommutes(a: seq<real>, b: seq<real>)
    requires |a| == |b|
    ensures Dot(a, b) == Dot(b, a)
    decreases |a|
  {
    if |a| > 0 {
      DotCommutes(a[1..], b[1..]);
    }
  }

  lemma {:induction false} DotZeroLeft(u: seq<real>, v: seq<real>)
    requires |u| == |v|
    requires forall i :: 0 <= i < |u| ==> u[i] == 0.0
    ensures Dot(u, v) == 0.0
    decreases |u|
  {
    if |u| > 0 {
      DotZeroLeft(u[1..], v[1..]);
    }
  }

  /** The dot product is linear in its left argument. */
  lemma {:induction false} DotAddScaled(c: real, r: seq<real>, u: seq<real>, v: seq<real>)
    requires |r| == |u| == |v|
    ensures Dot(AddScaled(c, r, u), v) == c * Dot(r, v) + Dot(u, v)
    decreases |r|
  {
    if |r| > 0 {
      var s := AddScaled(c, r, u);
      assert forall i :: 0 <= i < |r| - 1 ==> s[1..][i] == AddScaled(c, r[1..], u[1..])[i];
      assert s[1..] == AddScaled(c, r[1..], u[1..]);
      DotAddScaled(c, r[1..], u[1..], v[1..]);
      assert s[0] == c * r[0] + u[0];
      LinearStep(c, r[0], u[0], v[0], Dot(r[1..], v[1..]), Dot(u[1..], v[1..]));
    }
  }

  /** One step of the induction above, as plain arithmetic. */
  lemma LinearStep(c: real, r0: real, u0: real, v0: real, rest: real, restU: real)
    ensures (c * r0 + u0) * v0 + (c * rest + restU) == c * (r0 * v0 + rest) + (u0 * v0 + restU)
  {
  }

  /** Scaling the right argument scales the dot product. */
  lemma {:induction false} DotScaleRight(a: seq<real>, c: real, b: seq<real>)
    requires |a| == |b|
    ensures Dot(a, ScaleAll(c, b)) == c * Dot(a, b)
    decreases |a|
  {
    if |a| > 0 {
      assert forall i :: 0 <= i < |b| - 1 ==> ScaleAll(c, b)[1..][i] == ScaleAll(c, b[1..])[i];
      assert ScaleAll(c, b)[1..] == ScaleAll(c, b[1..]);
      DotScaleRight(a[1..], c, b[1..]);
    }
  }

  /** Scaling the left argument scales the dot product. */
  lemma {:induction false} DotScaleLeft(c: real, a: seq<real>, b: seq<real>)
    requires |a| == |b|
    ensures Dot(ScaleAll(c, a), b) == c * Dot(a, b)
    decreases |a|
  {
    if |a| > 0 {
      assert forall i :: 0 <= i < |a| - 1 ==> ScaleAll(c, a)[1..][i] == ScaleAll(c, a[1..])[i];
      assert ScaleAll(c, a)[1..] == ScaleAll(c, a[1..]);
      DotScaleLeft(c, a[1..], b[1..]);
    }
  }

  lemma {:induction false} ScaleScale(a: real, b: real, xs: seq<real>)
    ensures ScaleAll(a, ScaleAll(b, xs)) == ScaleAll(a * b, xs)
  {
    forall i | 0 <= i < |xs|
      ensures ScaleAll(a, ScaleAll(b, xs))[i] == ScaleAll(a * b, xs)[i]
    {
      assert a * (b * xs[i]) == (a * b) * xs[i];
    }
  }

  /** The dot product of a vector with itself is a sum of squares. */
  lemma {:induction false} DotSelfNonNegative(v: seq<real>)
    ensures 0.0 <= Dot(v, v)
    decreases |v|
  {
    if |v| > 0 {
      DotSelfNonNegative(v[1..]);
    }
  }

  /** A vector whose dot product with itself is zero is the zero vector. */
  lemma {:induction false} DotSelfZero(v: seq<real>)
    requires Dot(v, v) == 0.0
    ensures forall i :: 0 <= i < |v| ==> v[i] == 0.0
    decreases |v|
  {
    if |v| > 0 {
      DotSelfNonNegative(v[1..]);
      SquareNonNegative(v[0], v[0]);
      NonNegativeSumZero(v[0] * v[0], Dot(v[1..], v[1..]));
      ProductZero(v[0], v[0]);
      DotSelfZero(v[1..]);
      assert forall i :: 1 <= i < |v| ==> v[i] == v[1..][i - 1];
    }
  }

  /** The dot product with the zero vector is zero. */
  lemma {:induction false} DotZeroRight(u: seq<real>, v: seq<real>)
    requires |u| == |v|
    requires forall i :: 0 <= i < |v| ==> v[i] == 0.0
    ensures Dot(u, v) == 0.0
  {
    DotCommutes(u, v);
    DotZeroLeft(v, u);
  }

  // The square fact below takes the two factors separately (with a == b):
  // stated about `a * a` the solver does not close it.

  lemma SquareNonNegative(a: real, b: real)
    requires a == b
    ensures 0.0 <= a * b
  {
    if 0.0 < a {
      PositiveProduct(a, b);
    } else if a < 0.0 {
      NegativeProduct(a, b);
    }
  }

  /** A product is zero only when a factor is. */
  lemma ProductZero(a: real, b: real)
    requires a * b == 0.0
    ensures a == 0.0 || b == 0.0
  {
    if a != 0.0 {
      calc {
        b;
        (a * b) / a;
        0.0 / a;
        0.0;
      }
    }
  }

  lemma PositiveProduct(a: real, b: real)
    requires 0.0 < a && 0.0 < b
    ensures 0.0 < a * b
  {
  }

  lemma NegativeProduct(a: real, b: real)
    requires a < 0.0 && b < 0.0
    ensures 0.0 < a * b
  {
  }

  lemma NonNegativeSumZero(h: real, t: real)
    requires 0.0 <= h && 0.0 <= t && h + t == 0.0
    ensures h == 0.0 && t == 0.0
  {
  }

  lemma {:induction false} DotOnes(n: nat)
    ensures Dot(Ones(n), Ones(n)) == n as real
    decreases n
  {
    if n > 0 {
      assert Ones(n)[1..] == Ones(n - 1);
      DotOnes(n - 1);
    }
  }

  // ---------------------------------------------------------------------
  // Lemmas about matrix products

  /** Peeling the first row off A: A^T w == w[0] * A[0] + A[1..]^T w[1..]. */
  lemma {:induction false} TransposeMatVecFirstRow(a: Matrix, cols: nat, w: seq<real>)
    requires IsMatrix(a, cols) && |w| == |a| > 0
    ensures MatVec(Transpose(a, cols), w)
         == AddScaled(w[0], a[0], MatVec(Transpose(a[1..], cols), w[1..]))
  {
    var t := MatVec(Transpose(a, cols), w);
    var t' := MatVec(Transpose(a[1..], cols), w[1..]);
    forall j | 0 <= j < cols
      ensures t[j] == AddScaled(w[0], a[0], t')[j]
    {
      assert Column(a, cols, j)[1..] == Column(a[1..], cols, j);
    }
  }

  /** The transpose is the adjoint: (A^T w) . v == w . (A v). */
  lemma {:induction false} TransposeAdjoint(a: Matrix, cols: nat, w: seq<real>, v: seq<real>)
    requires IsMatrix(a, cols) && |w| == |a| && |v| == cols
    ensures Dot(MatVec(Transpose(a, cols), w), v) == Dot(w, MatVec(a, v))
    decreases |a|
  {
    if |a| == 0 {
      DotZeroLeft(MatVec(Transpose(a, cols), w), v);
    } else {
      var t' := MatVec(Transpose(a[1..], cols), w[1..]);
      TransposeMatVecFirstRow(a, cols, w);
      DotAddScaled(w[0], a[0], t', v);
      TransposeAdjoint(a[1..], cols, w[1..], v);
      DotMatVecFirstRow(a, w, v);
    }
  }

  /** Peeling the first row off A: w . (A v) == w[0] (A[0] . v) + w[1..] . (A[1..] v). */
  lemma {:induction false} DotMatVecFirstRow(a: Matrix, w: seq<real>, v: seq<real>)
    requires IsMatrix(a, |v|) && |w| == |a| > 0
    ensures Dot(w, MatVec(a, v)) == w[0] * Dot(a[0], v) + Dot(w[1..], MatVec(a[1..], v))
  {
    MatVecTail(a, v);
    DotFirst(w, MatVec(a, v), Dot(a[0], v), MatVec(a[1..], v));
  }

  /** The head of A v is A[0] . v and its tail is A[1..] v. */
  lemma {:induction false} MatVecTail(a: Matrix, v: seq<real>)
    requires IsMatrix(a, |v|) && |a| > 0
    ensures MatVec(a, v)[0] == Dot(a[0], v) && MatVec(a, v)[1..] == MatVec(a[1..], v)
  {
    var av, rest := MatVec(a, v), MatVec(a[1..], v);
    assert forall i :: 0 <= i < |rest| ==> av[1..][i] == rest[i];
  }

  /** One step of the definition of Dot, for a vector `b` known by its head and tail. */
  lemma DotFirst(a: seq<real>, b: seq<real>, head: real, tail: seq<real>)
    requires |a| == |b| > 0 && b[0] == head && b[1..] == tail
    ensures Dot(a, b) == a[0] * head + Dot(a[1..], tail)
  {
  }

  /** (A^T A) v == A^T (A v). */
  lemma {:induction false} GramAssociates(a: Matrix, cols: nat, v: seq<real>)
    requires IsMatrix(a, cols) && |v| == cols
    ensures MatVec(MatMul(Transpose(a, cols), a, cols), v)
         == MatVec(Transpose(a, cols), MatVec(a, v))
  {
    var at := Transpose(a, cols);
    var g := MatMul(at, a, cols);
    forall i | 0 <= i < cols
      ensures MatVec(g, v)[i] == MatVec(at, MatVec(a, v))[i]
    {
      var ci := Column(a, cols, i);
      forall j | 0 <= j < cols
        ensures g[i][j] == MatVec(at, ci)[j]
      {
        DotCommutes(ci, Column(a, cols, j));
      }
      assert g[i] == MatVec(at, ci);
      TransposeAdjoint(a, cols, ci, v);
    }
  }

  /**
   * A Gram matrix A^T A is positive semi-definite: v^T (A^T A) v is the
   * squared length of A v.
   */
  lemma {:induction false} GramPositiveSemiDefinite(a: Matrix, cols: nat, v: seq<real>)
    requires IsMatrix(a, cols) && |v| == cols
    ensures Dot(MatVec(MatMul(Transpose(a, cols), a, cols), v), v)
         == Dot(MatVec(a, v), MatVec(a, v)) >= 0.0
  {
    GramAssociates(a, cols, v);
    TransposeAdjoint(a, cols, MatVec(a, v), v);
    DotSelfNonNegative(MatVec(a, v));
  }
}
