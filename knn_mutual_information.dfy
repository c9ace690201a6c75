/**
 * The k-nearest-neighbour mutual-information estimator of ER
 * (`ER.mutual_information_knn`), estimator (8) of Kraskov, Stoegbauer and
 * Grassberger, "Estimating mutual information", Phys. Rev. E 69, 066138
 * (2004), with the default metric p = infinity.
 *
 * The digamma function is a parameter `psi`, consulted only at arguments of
 * at least 1; at its poles (integers of at most 0) the model yields a
 * non-finite term, as scipy's `psi` does.
 */
module KnnMutualInformation {
  import opened Distances
  import opened SortedRows

  /** The exceptions the numpy calls raise on bad input. */
  datatype MiError =
    | RowCountMismatch  // np.concatenate: the batches have different numbers of rows
    | NoObservations    // smallest_distance[-1, :] on an empty matrix
    | KthOutOfBounds    // np.argpartition: kth = k + 1 is not a valid index

  datatype Result<T> = Ok(value: T) | Err(error: MiError)

  /** A float estimate; `NaN` is what `np.nanmean` gives for no values. */
  datatype Estimate = Value(v: real) | NaN

  /** A digamma term: finite, or infinite/NaN (dropped by `np.isfinite`). */
  datatype Term = Fin(v: real) | NonFinite

  /** Two batches the estimator can take: 2-D arrays with as many rows each. */
  predicate WellFormed(y: Batch, z: Batch) {
    |y| == |z| && Rectangular(y) && Rectangular(z)
  }

  /** Distances between the rows of the joint space (lines 268 and 270): a
      self-distance matrix over the N observations. */
  function JointDistances(y: Batch, z: Batch): (dj: Matrix)
    requires WellFormed(y, z)
    ensures |dj| == |y| && SelfDistance(dj)
  {
    SelfDistanceMatrix(Concatenate(y, z));
    Cdist(Concatenate(y, z), Concatenate(y, z))
  }

  /** `np.sort(m)`: every row sorted ascending. */
  function SortRows(m: Matrix): (s: Matrix)
    ensures |s| == |m|
    ensures forall i :: 0 <= i < |m| ==> s[i] == Sort(m[i])
    ensures forall i :: 0 <= i < |m| ==> Ascending(s[i]) && multiset(s[i]) == multiset(m[i])
  {
    seq(|m|, i requires 0 <= i < |m| => Sort(m[i]))
  }

  /** `np.sort(cdist(joint_space, joint_space).T)` (lines 269-271): since the
      joint distance matrix is symmetric, row i is the sort of observation i's
      own distances. */
  function SortedJointDistances(y: Batch, z: Batch): (s: Matrix)
    requires WellFormed(y, z)
    ensures |s| == |y| && Square(s)
    ensures forall i :: 0 <= i < |y| ==> s[i] == Sort(JointDistances(y, z)[i])
  {
    var dj := JointDistances(y, z);
    TransposeSymmetric(dj);
    SortRows(Transpose(dj))
  }

  /** Every entry of the sorted joint distance matrix is non-negative. */
  lemma SortedJointNonNegative(y: Batch, z: Batch)
    requires WellFormed(y, z)
    ensures forall i, j :: 0 <= i < |y| && 0 <= j < |y| ==> 0.0 <= SortedJointDistances(y, z)[i][j]
  {
    forall i | 0 <= i < |y|
      ensures forall j :: 0 <= j < |y| ==> 0.0 <= SortedJointDistances(y, z)[i][j]
    {
      JointRow(y, z, i);
      SortedDistanceRowNonNegative(JointDistances(y, z)[i], i);
    }
  }

  /** The radius of every observation: column `c` of the sorted joint
      distances, where `c` is the last index `np.argpartition` returns among
      its first k + 1 (lines 272-274). */
  function Epsilon(y: Batch, z: Batch, c: nat): (eps: seq<real>)
    requires WellFormed(y, z)
    requires c < |y|
    ensures |eps| == |y|
    ensures forall i :: 0 <= i < |y| ==> 0.0 <= eps[i]
  {
    SortedJointNonNegative(y, z);
    var s := SortedJointDistances(y, z);
    seq(|y|, i requires 0 <= i < |y| => s[i][c])
  }

  /** `np.sum(d < epsilon, axis=1) - 1` (lines 276-277 and 279-280). */
  function NeighbourCounts(d: Matrix, eps: seq<real>): (n: seq<int>)
    requires |eps| == |d|
    ensures |n| == |d|
    ensures forall i :: 0 <= i < |d| ==> -1 <= n[i] <= |d[i]| - 1
  {
    seq(|d|, i requires 0 <= i < |d| => CountBelow(d[i], eps[i]) - 1)
  }

  /** `psi(n)` at an integer argument: finite from 1 on, a pole at 0 and below. */
  function Digamma(psi: nat -> real, n: int): (t: Term)
    ensures t.Fin? <==> n >= 1
    ensures t.Fin? ==> t.v == psi(n)
  {
    if n >= 1 then Fin(psi(n)) else NonFinite
  }

  /** Sum of two float terms; a non-finite operand makes it non-finite. */
  function AddTerms(a: Term, b: Term): (t: Term)
    ensures t.Fin? <==> a.Fin? && b.Fin?
  {
    if a.Fin? && b.Fin? then Fin(a.v + b.v) else NonFinite
  }

  /** `psi(nx + 1) + psi(ny + 1)` (line 281). */
  function DigammaTerms(nx: seq<int>, ny: seq<int>, psi: nat -> real): (arr: seq<Term>)
    requires |nx| == |ny|
    ensures |arr| == |nx|
    ensures forall i :: 0 <= i < |nx| ==> (arr[i].Fin? <==> nx[i] >= 0 && ny[i] >= 0)
  {
    seq(|nx|, i requires 0 <= i < |nx| => AddTerms(Digamma(psi, nx[i] + 1), Digamma(psi, ny[i] + 1)))
  }

  /** `arr[np.isfinite(arr)]`: the finite terms, in order. */
  function FiniteValues(arr: seq<Term>): (vals: seq<real>)
    ensures |vals| <= |arr|
    ensures |vals| == 0 <==> forall i :: 0 <= i < |arr| ==> arr[i].NonFinite?
  {
    if |arr| == 0 then []
    else
      var last := arr[|arr| - 1];
      FiniteValues(arr[..|arr| - 1]) + (if last.Fin? then [last.v] else [])
  }

  function Sum(s: seq<real>): real {
    if |s| == 0 then 0.0 else Sum(s[..|s| - 1]) + s[|s| - 1]
  }

  /** `np.nanmean` of finite values: their mean, or NaN when there are none. */
  function Mean(s: seq<real>): (m: Estimate)
    ensures m.NaN? <==> |s| == 0
    ensures m.Value? ==> m.v * (|s| as real) == Sum(s)
  {
    if |s| == 0 then NaN else Value(Sum(s) / |s| as real)
  }

  /** The sum of values between `lo` and `hi` lies between |s| lo and |s| hi. */
  lemma {:induction false} SumBounds(s: seq<real>, lo: real, hi: real)
    requires forall i :: 0 <= i < |s| ==> lo <= s[i] <= hi
    ensures lo * (|s| as real) <= Sum(s) <= hi * (|s| as real)
  {
    if |s| > 0 {
      var n := |s| - 1;
      SumBounds(s[..n], lo, hi);
      assert lo * (|s| as real) == lo * (n as real) + lo;
      assert hi * (|s| as real) == hi * (n as real) + hi;
    }
  }

  /** The mean of values between `lo` and `hi` lies between them. */
  lemma MeanWithinBounds(s: seq<real>, lo: real, hi: real)
    requires |s| > 0
    requires forall i :: 0 <= i < |s| ==> lo <= s[i] <= hi
    ensures lo <= Mean(s).v <= hi
  {
    SumBounds(s, lo, hi);
    var n := |s| as real;
    var m := Mean(s).v;
    assert m * n == Sum(s);
    assert lo * n <= m * n <= hi * n;
  }

  /** `a - m` in floating point: NaN propagates. */
  function Minus(a: real, m: Estimate): (r: Estimate)
    ensures r.NaN? <==> m.NaN?
  {
    match m
    case Value(v) => Value(a - v)
    case NaN => NaN
  }

  /** `ER.mutual_information_knn(y, y_perm)` with `p = inf`, `self.k = k` and
      the argpartition column `c`. It fails exactly when the batches have
      different numbers of rows or when k + 1 is not an index of a row. */
  function MutualInformationKnn(y: Batch, z: Batch, k: nat, c: nat, psi: nat -> real): (r: Result<Estimate>)
    requires Rectangular(y) && Rectangular(z)
    requires 1 <= k && c <= k
    ensures r.Err? <==> |y| != |z| || k + 1 >= |y|
    ensures |y| != |z| ==> r == Err(RowCountMismatch)
    ensures |y| == |z| == 0 ==> r == Err(NoObservations)
    ensures |y| == |z| > 0 && k + 1 >= |y| ==> r == Err(KthOutOfBounds)
  {
    if |y| != |z| then Err(RowCountMismatch)
    else if |y| == 0 then Err(NoObservations)
    else if k + 1 >= |y| then Err(KthOutOfBounds)
    else
      var eps := Epsilon(y, z, c);
      var nx := NeighbourCounts(Cdist(y, y), eps);
      var ny := NeighbourCounts(Cdist(z, z), eps);
      var arr := DigammaTerms(nx, ny, psi);
      Ok(Minus(psi(k) + psi(|y|), Mean(FiniteValues(arr))))
  }

  // ---------------------------------------------------------------------------
  // The reference: the mean of Kraskov et al.'s estimator (8), taken over the
  // observations with a positive radius, with n_x(i) the number of OTHER
  // observations strictly closer than the radius.

  /** Term i: psi(n_x(i) + 1) + psi(n_y(i) + 1), with the counts taken over
      the other observations. */
  function KsgTerm(dy: Matrix, dz: Matrix, eps: seq<real>, psi: nat -> real, i: nat): real
    requires Square(dy) && Square(dz)
    requires |dy| == |dz| == |eps|
    requires i < |eps|
  {
    psi(CountBelow(Without(dy[i], i), eps[i]) + 1) + psi(CountBelow(Without(dz[i], i), eps[i]) + 1)
  }

  /** The terms of the first n observations whose radius is positive. */
  function KsgTerms(dy: Matrix, dz: Matrix, eps: seq<real>, psi: nat -> real, n: nat): (t: seq<real>)
    requires Square(dy) && Square(dz)
    requires |dy| == |dz| == |eps|
    requires n <= |eps|
    ensures |t| <= n
  {
    if n == 0 then []
    else
      var i := n - 1;
      KsgTerms(dy, dz, eps, psi, i) + (if eps[i] > 0.0 then [KsgTerm(dy, dz, eps, psi, i)] else [])
  }

  // ---------------------------------------------------------------------------
  // Distances and the sorted joint matrix.

  /** The joint distance matrix is a self-distance matrix whose entries are
      the larger of the two marginal distances. */
  lemma JointDistanceFacts(y: Batch, z: Batch)
    requires WellFormed(y, z)
    ensures SelfDistance(JointDistances(y, z))
    ensures SelfDistance(Cdist(y, y)) && SelfDistance(Cdist(z, z))
    ensures forall i, j :: 0 <= i < |y| && 0 <= j < |y| ==>
              JointDistances(y, z)[i][j] == Max(Cdist(y, y)[i][j], Cdist(z, z)[i][j])
  {
    SelfDistanceMatrix(Concatenate(y, z));
    SelfDistanceMatrix(y);
    SelfDistanceMatrix(z);
    JointDistanceIsMax(y, z);
  }

  /** Row i of the joint distance matrix is a distance row, and row i of the
      sorted matrix is its sort. */
  lemma JointRow(y: Batch, z: Batch, i: nat)
    requires WellFormed(y, z)
    requires i < |y|
    ensures DistanceRow(JointDistances(y, z)[i], i)
    ensures SortedJointDistances(y, z)[i] == Sort(JointDistances(y, z)[i])
  {
    assert SelfDistance(JointDistances(y, z));
  }

  /** Each sorted row is the ascending permutation of the corresponding row
      of the joint distance matrix and starts with 0 (the observation itself). */
  lemma SortedJointRows(y: Batch, z: Batch, i: nat)
    requires WellFormed(y, z)
    requires i < |y|
    ensures var s := SortedJointDistances(y, z)[i];
            var row := JointDistances(y, z)[i];
            && Ascending(s)
            && multiset(s) == multiset(row)
            && s == Sort(row)
            && s[0] == 0.0
  {
    JointRow(y, z, i);
    SortedDistanceBounds(JointDistances(y, z)[i], i, 0, 0);
  }

  /** Every radius is the entry at column c <= k of its sorted row, so it lies
      between 0 and that row's entry at column k. */
  lemma EpsilonBounds(y: Batch, z: Batch, k: nat, c: nat)
    requires WellFormed(y, z)
    requires c <= k < |y|
    ensures forall i :: 0 <= i < |y| ==>
              0.0 <= Epsilon(y, z, c)[i] <= SortedJointDistances(y, z)[i][k]
  {
    forall i | 0 <= i < |y|
      ensures 0.0 <= Epsilon(y, z, c)[i] <= SortedJointDistances(y, z)[i][k]
    {
      JointRow(y, z, i);
      SortedDistanceBounds(JointDistances(y, z)[i], i, c, k);
    }
  }

  /** With c = k the radius of observation i is its distance to its k-th
      nearest neighbour in the joint space: fewer than k other observations lie
      strictly inside it, and at least k lie within it. */
  lemma EpsilonIsKthNeighbourDistance(y: Batch, z: Batch, k: nat, i: nat)
    requires WellFormed(y, z)
    requires 1 <= k < |y|
    requires i < |y|
    ensures var others := Without(JointDistances(y, z)[i], i);
            var e := Epsilon(y, z, k)[i];
            CountBelow(others, e) < k <= CountAtMost(others, e)
  {
    JointRow(y, z, i);
    KthSmallestIsKthNeighbour(JointDistances(y, z)[i], i, k);
  }

  /** With c = k an observation's radius is 0 exactly when at least k other
      observations coincide with it in the joint space. */
  lemma ZeroRadiusIffDuplicates(y: Batch, z: Batch, k: nat, i: nat)
    requires WellFormed(y, z)
    requires 1 <= k < |y|
    requires i < |y|
    ensures Epsilon(y, z, k)[i] == 0.0 <==> CountAtMost(Without(JointDistances(y, z)[i], i), 0.0) >= k
  {
    var others := Without(JointDistances(y, z)[i], i);
    var e := Epsilon(y, z, k)[i];
    EpsilonIsKthNeighbourDistance(y, z, k, i);
    EpsilonBounds(y, z, k, k);
    if e > 0.0 {
      CountAtMostBelowLarger(others, 0.0, e);
    }
  }

  // ---------------------------------------------------------------------------
  // Neighbour counts.

  /** The count of line 277 for one observation: between -1 and N - 1; -1
      exactly when the radius is 0; otherwise the number of other
      observations strictly inside the radius. */
  lemma NeighbourCountFacts(d: Matrix, eps: seq<real>, i: nat)
    requires SelfDistance(d)
    requires |eps| == |d|
    requires i < |d|
    requires eps[i] >= 0.0
    ensures var n := NeighbourCounts(d, eps)[i];
            && -1 <= n <= |d| - 1
            && (n == -1 <==> eps[i] == 0.0)
            && (eps[i] > 0.0 ==> n == CountBelow(Without(d[i], i), eps[i]))
  {
    CountsWithout(d[i], i, eps[i]);
    if eps[i] == 0.0 {
      CountBelowLowerBound(Without(d[i], i), 0.0);
    }
  }

  /** The marginal counts are at least the joint ones: a point inside the
      radius in the joint space is inside it in each marginal space. */
  lemma MarginalCountsDominateJoint(y: Batch, z: Batch, c: nat, i: nat)
    requires WellFormed(y, z)
    requires c < |y|
    requires i < |y|
    ensures var eps := Epsilon(y, z, c);
            var dj := JointDistances(y, z)[i];
            var nx := NeighbourCounts(Cdist(y, y), eps)[i];
            var ny := NeighbourCounts(Cdist(z, z), eps)[i];
            && nx + 1 >= CountBelow(dj, eps[i])
            && ny + 1 >= CountBelow(dj, eps[i])
            && (eps[i] > 0.0 ==> nx >= CountBelow(Without(dj, i), eps[i]))
            && (eps[i] > 0.0 ==> ny >= CountBelow(Without(dj, i), eps[i]))
  {
    var eps := Epsilon(y, z, c);
    var dj := JointDistances(y, z)[i];
    var dy := Cdist(y, y)[i];
    var dz := Cdist(z, z)[i];
    assert DistanceRow(dj, i) by {
      JointRow(y, z, i);
    }
    assert forall j :: 0 <= j < |y| ==> dy[j] <= dj[j] && dz[j] <= dj[j] by {
      JointDistanceIsMax(y, z);
    }
    DominatedCounts(dy, dj, i, eps[i]);
    DominatedCounts(dz, dj, i, eps[i]);
  }

  // ---------------------------------------------------------------------------
  // The finite-term filter.

  /** Term i of line 281 is finite exactly when the radius of i is positive,
      and it is then Kraskov et al.'s term for i. */
  lemma DigammaTermAt(dy: Matrix, dz: Matrix, eps: seq<real>, psi: nat -> real, i: nat)
    requires SelfDistance(dy) && SelfDistance(dz)
    requires |dy| == |dz| == |eps|
    requires i < |eps| && eps[i] >= 0.0
    ensures var t := DigammaTerms(NeighbourCounts(dy, eps), NeighbourCounts(dz, eps), psi)[i];
            t == if eps[i] > 0.0 then Fin(KsgTerm(dy, dz, eps, psi, i)) else NonFinite
  {
    var nx := NeighbourCounts(dy, eps)[i];
    var ny := NeighbourCounts(dz, eps)[i];
    assert (nx >= 0 <==> eps[i] > 0.0) && (eps[i] > 0.0 ==> nx == CountBelow(Without(dy[i], i), eps[i])) by {
      NeighbourCountFacts(dy, eps, i);
    }
    assert (ny >= 0 <==> eps[i] > 0.0) && (eps[i] > 0.0 ==> ny == CountBelow(Without(dz[i], i), eps[i])) by {
      NeighbourCountFacts(dz, eps, i);
    }
    assert DigammaTerms(NeighbourCounts(dy, eps), NeighbourCounts(dz, eps), psi)[i]
           == AddTerms(Digamma(psi, nx + 1), Digamma(psi, ny + 1));
  }

  /** Filtering a sequence whose term i is finite exactly for a positive
      radius, and is then Kraskov et al.'s term, leaves Kraskov et al.'s terms. */
  lemma {:induction false} FilterKeepsKsgTerms(arr: seq<Term>, dy: Matrix, dz: Matrix, eps: seq<real>, psi: nat -> real, n: nat)
    requires Square(dy) && Square(dz)
    requires |dy| == |dz| == |eps| == |arr|
    requires forall i :: 0 <= i < |arr| ==>
               arr[i] == if eps[i] > 0.0 then Fin(KsgTerm(dy, dz, eps, psi, i)) else NonFinite
    requires n <= |arr|
    ensures FiniteValues(arr[..n]) == KsgTerms(dy, dz, eps, psi, n)
  {
    if n == 0 {
      assert arr[..0] == [];
    } else {
      var i := n - 1;
      FilterKeepsKsgTerms(arr, dy, dz, eps, psi, i);
      assert arr[..n][..i] == arr[..i];
    }
  }

  /** The finite terms are exactly Kraskov et al.'s terms of the observations
      with a positive radius, in order: the filter of line 283 drops precisely
      the observations whose radius is 0. */
  lemma FiniteTermsAreKsgTerms(dy: Matrix, dz: Matrix, eps: seq<real>, psi: nat -> real, n: nat)
    requires SelfDistance(dy) && SelfDistance(dz)
    requires |dy| == |dz| == |eps|
    requires forall i :: 0 <= i < |eps| ==> eps[i] >= 0.0
    requires n <= |eps|
    ensures FiniteValues(DigammaTerms(NeighbourCounts(dy, eps), NeighbourCounts(dz, eps), psi)[..n])
            == KsgTerms(dy, dz, eps, psi, n)
  {
    var arr := DigammaTerms(NeighbourCounts(dy, eps), NeighbourCounts(dz, eps), psi);
    forall i | 0 <= i < |arr|
      ensures arr[i] == if eps[i] > 0.0 then Fin(KsgTerm(dy, dz, eps, psi, i)) else NonFinite
    {
      DigammaTermAt(dy, dz, eps, psi, i);
    }
    FilterKeepsKsgTerms(arr, dy, dz, eps, psi, n);
  }

  /** No term survives exactly when every radius is 0. */
  lemma {:induction false} KsgTermsEmptyIff(dy: Matrix, dz: Matrix, eps: seq<real>, psi: nat -> real, n: nat)
    requires SelfDistance(dy) && SelfDistance(dz)
    requires |dy| == |dz| == |eps|
    requires forall i :: 0 <= i < |eps| ==> eps[i] >= 0.0
    requires n <= |eps|
    ensures |KsgTerms(dy, dz, eps, psi, n)| == 0 <==> forall i :: 0 <= i < n ==> eps[i] == 0.0
  {
    if n > 0 {
      KsgTermsEmptyIff(dy, dz, eps, psi, n - 1);
    }
  }

  /** The successful path of the estimator, step by step. */
  lemma EstimateUnfolds(y: Batch, z: Batch, k: nat, c: nat, psi: nat -> real)
    requires WellFormed(y, z)
    requires 1 <= k && c <= k && k + 1 < |y|
    ensures var eps := Epsilon(y, z, c);
            var arr := DigammaTerms(NeighbourCounts(Cdist(y, y), eps), NeighbourCounts(Cdist(z, z), eps), psi);
            MutualInformationKnn(y, z, k, c, psi) == Ok(Minus(psi(k) + psi(|y|), Mean(FiniteValues(arr))))
  {
  }

  /** Over the whole batch: the finite terms are Kraskov et al.'s terms, and
      there are none exactly when every radius is 0. */
  lemma FilterKeepsPositiveRadii(dy: Matrix, dz: Matrix, eps: seq<real>, psi: nat -> real)
    requires SelfDistance(dy) && SelfDistance(dz)
    requires |dy| == |dz| == |eps|
    requires forall i :: 0 <= i < |eps| ==> eps[i] >= 0.0
    ensures var arr := DigammaTerms(NeighbourCounts(dy, eps), NeighbourCounts(dz, eps), psi);
            FiniteValues(arr) == KsgTerms(dy, dz, eps, psi, |eps|)
    ensures var arr := DigammaTerms(NeighbourCounts(dy, eps), NeighbourCounts(dz, eps), psi);
            |FiniteValues(arr)| == 0 <==> forall i :: 0 <= i < |eps| ==> eps[i] == 0.0
  {
    var arr := DigammaTerms(NeighbourCounts(dy, eps), NeighbourCounts(dz, eps), psi);
    FiniteTermsAreKsgTerms(dy, dz, eps, psi, |eps|);
    assert arr[..|eps|] == arr;
    KsgTermsEmptyIff(dy, dz, eps, psi, |eps|);
  }

  /** The same on the estimator's own distances and radii. */
  lemma EstimatorFilter(y: Batch, z: Batch, k: nat, c: nat, psi: nat -> real)
    requires WellFormed(y, z)
    requires 1 <= k && c <= k && k + 1 < |y|
    ensures var eps := Epsilon(y, z, c);
            var dy, dz := Cdist(y, y), Cdist(z, z);
            var arr := DigammaTerms(NeighbourCounts(dy, eps), NeighbourCounts(dz, eps), psi);
            && FiniteValues(arr) == KsgTerms(dy, dz, eps, psi, |y|)
            && (|FiniteValues(arr)| == 0 <==> forall i :: 0 <= i < |y| ==> eps[i] == 0.0)
  {
    var eps := Epsilon(y, z, c);
    var dy, dz := Cdist(y, y), Cdist(z, z);
    assert forall i :: 0 <= i < |eps| ==> eps[i] >= 0.0 by {
      EpsilonBounds(y, z, k, c);
    }
    assert SelfDistance(dy) && SelfDistance(dz) by {
      SelfDistanceMatrix(y);
      SelfDistanceMatrix(z);
    }
    FilterKeepsPositiveRadii(dy, dz, eps, psi);
  }

  /** The estimate is psi(k) + psi(N) minus the mean of Kraskov et al.'s terms
      over the observations with a positive radius (NaN when there are none). */
  lemma EstimateIsKsgMean(y: Batch, z: Batch, k: nat, c: nat, psi: nat -> real)
    requires WellFormed(y, z)
    requires 1 <= k && c <= k && k + 1 < |y|
    ensures var terms := KsgTerms(Cdist(y, y), Cdist(z, z), Epsilon(y, z, c), psi, |y|);
            MutualInformationKnn(y, z, k, c, psi) == Ok(Minus(psi(k) + psi(|y|), Mean(terms)))
  {
    EstimateUnfolds(y, z, k, c, psi);
    EstimatorFilter(y, z, k, c, psi);
  }

  /** The estimate is NaN exactly when every radius is 0, that is when no
      digamma term is finite. */
  lemma EstimateNaNIffZeroRadii(y: Batch, z: Batch, k: nat, c: nat, psi: nat -> real)
    requires WellFormed(y, z)
    requires 1 <= k && c <= k && k + 1 < |y|
    ensures MutualInformationKnn(y, z, k, c, psi) == Ok(NaN)
            <==> forall i :: 0 <= i < |y| ==> Epsilon(y, z, c)[i] == 0.0
  {
    EstimateUnfolds(y, z, k, c, psi);
    EstimatorFilter(y, z, k, c, psi);
  }

  /** The other extreme of the argpartition column: with c = 0 every radius is
      the observation's distance to itself, 0, so the estimate is NaN on
      every valid input. */
  lemma ColumnZeroGivesNaN(y: Batch, z: Batch, k: nat, psi: nat -> real)
    requires WellFormed(y, z)
    requires 1 <= k && k + 1 < |y|
    ensures MutualInformationKnn(y, z, k, 0, psi) == Ok(NaN)
  {
    forall i | 0 <= i < |y|
      ensures Epsilon(y, z, 0)[i] == 0.0
    {
      SortedJointRows(y, z, i);
    }
    EstimateNaNIffZeroRadii(y, z, k, 0, psi);
  }
}
