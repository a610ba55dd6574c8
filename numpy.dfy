/** The small part of numpy that the task layer relies on: real vectors and
    matrices, boolean masks and boolean row selection (`a[mask]`, `J[mask, :]`),
    element-wise arithmetic, the cross product, and the transcendental
    functions `sqrt` and `exp`, which are left uninterpreted.

    Arithmetic is over the mathematical reals, not IEEE floats. */
module Numpy {

  type Vec = seq<real>
  type Mat = seq<seq<real>>

  /** A vector of length 3 (a linear or angular part of a spatial motion). */
  type Vec3 = v: Vec | |v| == 3 witness [0.0, 0.0, 0.0]

  /** A matrix with 3 rows, as returned for a center-of-mass Jacobian. */
  type Rows3 = m: Mat | |m| == 3 witness [[], [], []]

  /** A matrix with 6 rows, as returned for a frame Jacobian. */
  type Rows6 = m: Mat | |m| == 6 witness [[], [], [], [], [], []]

  /** `np.sqrt` and `np.exp`. They are floating-point library calls, so the
      model takes them as parameters and assumes nothing about them. */
  datatype Transcendentals = Transcendentals(sqrt: real -> real, exp: real -> real)

  // ---------------------------------------------------------------------
  // Masks

  /** numpy `mask.sum()` on a boolean array: the number of `True` entries. */
  function CountTrue(mask: seq<bool>): (n: nat)
    ensures n <= |mask|
  {
    if |mask| == 0 then 0
    else CountTrue(mask[..|mask| - 1]) + (if mask[|mask| - 1] then 1 else 0)
  }

  /** The positions of a mask that hold `True`. */
  ghost function MarkedSet(mask: seq<bool>): set<int>
  {
    set i | 0 <= i < |mask| && mask[i]
  }

  /** `mask.sum()` is exactly the number of positions that hold `True`. */
  lemma {:induction false} CountTrueIsCardinality(mask: seq<bool>)
    ensures CountTrue(mask) == |MarkedSet(mask)|
  {
    if |mask| > 0 {
      var n := |mask| - 1;
      var p := mask[..n];
      CountTrueIsCardinality(p);
      assert n !in MarkedSet(p);
      if mask[n] {
        assert MarkedSet(mask) == MarkedSet(p) + {n};
      } else {
        assert MarkedSet(mask) == MarkedSet(p);
      }
    }
  }

  /** `np.ones(n).astype(bool)`: the mask that keeps every row. */
  function AllTrue(n: nat): (m: seq<bool>)
    ensures |m| == n && forall i :: 0 <= i < n ==> m[i]
  {
    seq(n, i => true)
  }

  /** `x.astype(bool)` on a numeric array: nonzero entries become `True`. */
  function AsBool(xs: seq<real>): (m: seq<bool>)
    ensures |m| == |xs|
    ensures forall i :: 0 <= i < |xs| ==> (m[i] <==> xs[i] != 0.0)
  {
    seq(|xs|, i requires 0 <= i < |xs| => xs[i] != 0.0)
  }

  /** The indices of the `True` entries of a mask, in increasing order: the
      reference description of which rows a boolean selection keeps. */
  function TrueIndices(mask: seq<bool>): (r: seq<nat>)
    ensures |r| == CountTrue(mask)
    ensures forall k :: 0 <= k < |r| ==> r[k] < |mask| && mask[r[k]]
  {
    if |mask| == 0 then []
    else
      var n := |mask| - 1;
      TrueIndices(mask[..n]) + (if mask[n] then [n] else [])
  }

  /** The indices of `TrueIndices` increase strictly and cover every `True`
      entry of the mask. */
  lemma {:induction false} TrueIndicesOrderedAndComplete(mask: seq<bool>)
    ensures forall j, k :: 0 <= j < k < |TrueIndices(mask)| ==> TrueIndices(mask)[j] < TrueIndices(mask)[k]
    ensures forall i :: 0 <= i < |mask| && mask[i] ==> i in TrueIndices(mask)
  {
    if |mask| > 0 {
      var n := |mask| - 1;
      var p := mask[..n];
      TrueIndicesOrderedAndComplete(p);
      var r := TrueIndices(mask);
      assert r == TrueIndices(p) + (if mask[n] then [n] else []);
      forall i | 0 <= i < |mask| && mask[i]
        ensures i in r
      {
        if i < n {
          assert p[i];
        }
      }
    }
  }

  // ---------------------------------------------------------------------
  // Boolean row selection

  /** numpy boolean indexing `xs[mask]` (rows of a matrix when `T` is a row):
      keeps the elements whose mask bit is `True`. numpy raises an IndexError
      when the lengths differ; callers here always pass equal lengths. */
  function Select<T>(xs: seq<T>, mask: seq<bool>): (r: seq<T>)
    requires |xs| == |mask|
    ensures |r| == CountTrue(mask)
  {
    if |xs| == 0 then []
    else
      var n := |xs| - 1;
      Select(xs[..n], mask[..n]) + (if mask[n] then [xs[n]] else [])
  }

  /** `r` is what boolean selection of `full` by `mask` must give: one row
      per `True` bit, and the k-th row of `r` is the row of `full` at the
      k-th `True` index. */
  ghost predicate IsSelection<T>(r: seq<T>, full: seq<T>, mask: seq<bool>)
  {
    |full| == |mask| && |r| == CountTrue(mask) &&
    forall k :: 0 <= k < |r| ==> r[k] == full[TrueIndices(mask)[k]]
  }

  /** Selection keeps exactly the rows with a `True` bit, in their original
      order. */
  lemma {:induction false} SelectKeepsMarkedRows<T>(xs: seq<T>, mask: seq<bool>)
    requires |xs| == |mask|
    ensures IsSelection(Select(xs, mask), xs, mask)
  {
    if |xs| > 0 {
      var n := |xs| - 1;
      SelectKeepsMarkedRows(xs[..n], mask[..n]);
      assert Select(xs, mask) == Select(xs[..n], mask[..n]) + (if mask[n] then [xs[n]] else []);
      assert TrueIndices(mask) == TrueIndices(mask[..n]) + (if mask[n] then [n] else []);
    }
  }

  /** With a mask that keeps every row, selection is the identity. */
  lemma {:induction false} SelectAllMarked<T>(xs: seq<T>, mask: seq<bool>)
    requires |xs| == |mask|
    requires forall i :: 0 <= i < |mask| ==> mask[i]
    ensures Select(xs, mask) == xs
  {
    if |xs| > 0 {
      var n := |xs| - 1;
      SelectAllMarked(xs[..n], mask[..n]);
      assert xs == xs[..n] + [xs[n]];
    }
  }

  // ---------------------------------------------------------------------
  // Element-wise arithmetic

  function Add(a: Vec, b: Vec): (r: Vec)
    requires |a| == |b|
    ensures |r| == |a| && forall i :: 0 <= i < |a| ==> r[i] == a[i] + b[i]
  {
    seq(|a|, i requires 0 <= i < |a| => a[i] + b[i])
  }

  function Sub(a: Vec, b: Vec): (r: Vec)
    requires |a| == |b|
    ensures |r| == |a| && forall i :: 0 <= i < |a| ==> r[i] == a[i] - b[i]
  {
    seq(|a|, i requires 0 <= i < |a| => a[i] - b[i])
  }

  function Scale(c: real, a: Vec): (r: Vec)
    ensures |r| == |a| && forall i :: 0 <= i < |a| ==> r[i] == c * a[i]
  {
    seq(|a|, i requires 0 <= i < |a| => c * a[i])
  }

  /** `np.cross` of two 3-vectors. */
  function Cross(a: Vec3, b: Vec3): Vec3
  {
    [a[1] * b[2] - a[2] * b[1], a[2] * b[0] - a[0] * b[2], a[0] * b[1] - a[1] * b[0]]
  }

  function Dot3(a: Vec3, b: Vec3): real
  {
    a[0] * b[0] + a[1] * b[1] + a[2] * b[2]
  }

  /** The cross product is orthogonal to both of its operands. */
  lemma CrossOrthogonal(a: Vec3, b: Vec3)
    ensures Dot3(Cross(a, b), a) == 0.0 && Dot3(Cross(a, b), b) == 0.0
  {
  }

  function SumSquares(a: Vec): real
  {
    if |a| == 0 then 0.0 else SumSquares(a[..|a| - 1]) + a[|a| - 1] * a[|a| - 1]
  }

  /** `np.linalg.norm` of a vector: the square root of its sum of squares. */
  function Norm(tr: Transcendentals, a: Vec): real
  {
    tr.sqrt(SumSquares(a))
  }

  lemma {:induction false} SumSquaresNonNegative(a: Vec)
    ensures 0.0 <= SumSquares(a)
  {
    if |a| > 0 {
      SumSquaresNonNegative(a[..|a| - 1]);
      assert 0.0 <= a[|a| - 1] * a[|a| - 1];
    }
  }

  /** The squared norm of the zero vector is zero. */
  /** Where `sqrt` is non-negative on non-negative arguments, so is the
      norm. */
  lemma NormNonNegative(tr: Transcendentals, a: Vec)
    requires forall x :: 0.0 <= x ==> 0.0 <= tr.sqrt(x)
    ensures 0.0 <= Norm(tr, a)
  {
    SumSquaresNonNegative(a);
  }

  lemma {:induction false} SumSquaresOfZero(a: Vec)
    requires forall i :: 0 <= i < |a| ==> a[i] == 0.0
    ensures SumSquares(a) == 0.0
  {
    if |a| > 0 {
      SumSquaresOfZero(a[..|a| - 1]);
    }
  }

  // ---------------------------------------------------------------------
  // Matrices

  /** `np.zeros([rows, cols])`. */
  function Zeros(rows: nat, cols: nat): (m: Mat)
    ensures |m| == rows && forall i :: 0 <= i < rows ==> |m[i]| == cols
    ensures forall i, j :: 0 <= i < rows && 0 <= j < cols ==> m[i][j] == 0.0
  {
    seq(rows, i => seq(cols, j => 0.0))
  }

  /** `np.eye(n)`. */
  function Identity(n: nat): (m: Mat)
    ensures |m| == n && forall i :: 0 <= i < n ==> |m[i]| == n
    ensures forall i, j :: 0 <= i < n && 0 <= j < n ==> m[i][j] == if i == j then 1.0 else 0.0
  {
    seq(n, i => seq(n, j => if i == j then 1.0 else 0.0))
  }

  /** `np.hstack([a, b])`: rows side by side, so each row of the result
      starts with the row of `a` and ends with the row of `b`. */
  function HStack(a: Mat, b: Mat): (m: Mat)
    requires |a| == |b|
    ensures |m| == |a|
    ensures forall i :: 0 <= i < |a| ==>
              |m[i]| == |a[i]| + |b[i]| && m[i][..|a[i]|] == a[i] && m[i][|a[i]|..] == b[i]
  {
    seq(|a|, i requires 0 <= i < |a| => a[i] + b[i])
  }
}
