/**
 * Pairwise distances between the rows of observation batches under the
 * estimator's default metric, the Minkowski distance with p = infinity
 * (Chebyshev distance): `cdist(a, b, "minkowski", p=inf)`.
 */
module Distances {

  /** One observation: a row of coordinates. */
  type Row = seq<real>

  /** An observation batch: N rows of equal width (a 2-D array). */
  type Batch = seq<Row>

  /** A matrix of distances, one row per observation. */
  type Matrix = seq<seq<real>>

  /** Every row of `a` has the width of every row of `b`. */
  predicate SameWidth(a: Batch, b: Batch) {
    forall i, j :: 0 <= i < |a| && 0 <= j < |b| ==> |a[i]| == |b[j]|
  }

  /** All rows of a batch have one width. */
  predicate Rectangular(a: Batch) {
    SameWidth(a, a)
  }

  function Abs(x: real): (r: real)
    ensures r >= 0.0
    ensures r == x || r == -x
  {
    if x < 0.0 then -x else x
  }

  function Max(a: real, b: real): (m: real)
    ensures a <= m && b <= m
    ensures m == a || m == b
  {
    if a < b then b else a
  }

  /** Chebyshev distance: the largest absolute coordinate difference (0 for
      rows without coordinates). */
  function Chebyshev(u: Row, v: Row): (d: real)
    requires |u| == |v|
    ensures d >= 0.0
    ensures forall m :: 0 <= m < |u| ==> Abs(u[m] - v[m]) <= d
    ensures |u| == 0 ==> d == 0.0
    ensures |u| > 0 ==> exists m :: 0 <= m < |u| && d == Abs(u[m] - v[m])
  {
    if |u| == 0 then 0.0
    else
      var rest := Chebyshev(u[1..], v[1..]);
      assert forall m :: 1 <= m < |u| ==> Abs(u[m] - v[m]) == Abs(u[1..][m - 1] - v[1..][m - 1]);
      assert |u| > 1 && rest != Abs(u[0] - v[0]) ==> exists m :: 1 <= m < |u| && rest == Abs(u[m] - v[m]);
      Max(Abs(u[0] - v[0]), rest)
  }

  /** `cdist(a, b)`: entry (i, j) is the distance from row i of `a` to row j of `b`. */
  function Cdist(a: Batch, b: Batch): (d: Matrix)
    requires SameWidth(a, b)
    ensures |d| == |a|
    ensures forall i :: 0 <= i < |a| ==> |d[i]| == |b|
    ensures forall i, j :: 0 <= i < |a| && 0 <= j < |b| ==> d[i][j] == Chebyshev(a[i], b[j])
  {
    seq(|a|, i requires 0 <= i < |a| =>
      seq(|b|, j requires 0 <= j < |b| => Chebyshev(a[i], b[j])))
  }

  /** `np.concatenate([y, z], axis=1)`: row i of the joint batch is row i of
      `y` followed by row i of `z`. */
  function Concatenate(y: Batch, z: Batch): (joint: Batch)
    requires |y| == |z|
    requires Rectangular(y) && Rectangular(z)
    ensures |joint| == |y|
    ensures Rectangular(joint)
    ensures forall i :: 0 <= i < |y| ==> joint[i] == y[i] + z[i]
  {
    seq(|y|, i requires 0 <= i < |y| => y[i] + z[i])
  }

  predicate Square(m: Matrix) {
    forall i :: 0 <= i < |m| ==> |m[i]| == |m|
  }

  /** `m.T` for a square matrix. */
  function Transpose(m: Matrix): (t: Matrix)
    requires Square(m)
    ensures |t| == |m| && Square(t)
    ensures forall i, j :: 0 <= i < |m| && 0 <= j < |m| ==> t[i][j] == m[j][i]
  {
    seq(|m|, i requires 0 <= i < |m| => seq(|m|, j requires 0 <= j < |m| => m[j][i]))
  }

  /** A self-distance matrix: square, symmetric, non-negative, zero on the diagonal. */
  predicate SelfDistance(d: Matrix) {
    && Square(d)
    && (forall i, j :: 0 <= i < |d| && 0 <= j < |d| ==> d[i][j] == d[j][i])
    && (forall i, j :: 0 <= i < |d| && 0 <= j < |d| ==> d[i][j] >= 0.0)
    && (forall i :: 0 <= i < |d| ==> d[i][i] == 0.0)
  }

  // ---------------------------------------------------------------------------

  lemma {:induction false} ChebyshevSymmetric(u: Row, v: Row)
    requires |u| == |v|
    ensures Chebyshev(u, v) == Chebyshev(v, u)
  {
    if |u| > 0 {
      ChebyshevSymmetric(u[1..], v[1..]);
      assert Abs(u[0] - v[0]) == Abs(v[0] - u[0]);
    }
  }

  /** Distance of a row to itself is 0. */
  lemma ChebyshevSelf(u: Row)
    ensures Chebyshev(u, u) == 0.0
  {
    if |u| > 0 {
      var m :| 0 <= m < |u| && Chebyshev(u, u) == Abs(u[m] - u[m]);
    }
  }

  /** The distance between two concatenated rows is the larger of the
      distances between their parts. */
  lemma {:induction false} ChebyshevConcat(u1: Row, u2: Row, v1: Row, v2: Row)
    requires |u1| == |v1| && |u2| == |v2|
    ensures Chebyshev(u1 + u2, v1 + v2) == Max(Chebyshev(u1, v1), Chebyshev(u2, v2))
  {
    if |u1| == 0 {
      assert u1 + u2 == u2 && v1 + v2 == v2;
    } else {
      assert (u1 + u2)[1..] == u1[1..] + u2;
      assert (v1 + v2)[1..] == v1[1..] + v2;
      ChebyshevConcat(u1[1..], u2, v1[1..], v2);
    }
  }

  /** Transposing a symmetric square matrix changes nothing. */
  lemma TransposeSymmetric(m: Matrix)
    requires Square(m)
    requires forall i, j :: 0 <= i < |m| && 0 <= j < |m| ==> m[i][j] == m[j][i]
    ensures Transpose(m) == m
  {
    var t := Transpose(m);
    forall i | 0 <= i < |m|
      ensures t[i] == m[i]
    {
    }
  }

  /** `cdist(a, a)` is a self-distance matrix (symmetric, non-negative, zero
      on the diagonal), so transposing it changes nothing. */
  lemma SelfDistanceMatrix(a: Batch)
    requires Rectangular(a)
    ensures SelfDistance(Cdist(a, a))
    ensures Transpose(Cdist(a, a)) == Cdist(a, a)
  {
    var d := Cdist(a, a);
    forall i, j | 0 <= i < |a| && 0 <= j < |a|
      ensures d[i][j] == d[j][i]
    {
      ChebyshevSymmetric(a[i], a[j]);
    }
    forall i | 0 <= i < |a|
      ensures d[i][i] == 0.0
    {
      ChebyshevSelf(a[i]);
    }
    TransposeSymmetric(d);
  }

  /** The joint distance of observations i and j is the larger of their
      distance in `y` and their distance in `z`. */
  lemma JointDistanceIsMax(y: Batch, z: Batch)
    requires |y| == |z|
    requires Rectangular(y) && Rectangular(z)
    ensures var dj := Cdist(Concatenate(y, z), Concatenate(y, z));
            var dy := Cdist(y, y);
            var dz := Cdist(z, z);
            forall i, j :: 0 <= i < |y| && 0 <= j < |y| ==> dj[i][j] == Max(dy[i][j], dz[i][j])
  {
    var joint := Concatenate(y, z);
    forall i, j | 0 <= i < |y| && 0 <= j < |y|
      ensures Chebyshev(joint[i], joint[j]) == Max(Chebyshev(y[i], y[j]), Chebyshev(z[i], z[j]))
    {
      ChebyshevConcat(y[i], z[i], y[j], z[j]);
    }
  }
}
