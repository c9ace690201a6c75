# Entropic Regression: configuration check and KSG mutual-information estimator

This project models two parts of the Entropic Regression (ER) model-structure
selector of sysidentpy and proves properties of them in Dafny:

- `ER._validate_params`, the check the ER constructor runs on its keyword
  arguments. Ten guards run in a fixed order and each one raises.
  `ParamValidation` models the arguments as dynamically typed Python values
  (`PyValues`). `bool` counts as an `int`, and floats carry IEEE infinities
  and NaN. The result is either acceptance or the first guard that fires.
  `Raises` gives the exception that escapes. The messages format the value
  with `%f`, which itself raises TypeError for a string, a list or None.
  It raises OverflowError for an int beyond the double range.
- `ER.mutual_information_knn`, the Kraskov–Stögbauer–Grassberger (KSG)
  k-nearest-neighbour estimator of mutual information, with the default
  metric p = infinity (Chebyshev). Its steps are:
  - join the two batches column-wise;
  - build the joint distance matrix and sort each row;
  - pick every observation's radius from the sorted rows;
  - count the neighbours strictly inside the radius in each marginal space;
  - sum the digamma terms;
  - average the finite terms with `nanmean`.

  The modules are `Distances` (Chebyshev distance, `cdist`,
  concatenation, transpose), `SortedRows` (row sort and neighbour counts)
  and `KnnMutualInformation` (the estimator).

The digamma function is the parameter `psi: nat -> real`. The estimator only
calls it at integers, and at 0 and below it has a pole; there the model yields
a non-finite term, which the `np.isfinite` filter drops. The column that
`np.argpartition(..., k + 1)[:k + 1]` puts last is left open as well: it is a
parameter `c <= k` (see "Left out").

The main results are:

- `ValidateParams` accepts a configuration exactly when every parameter lies
  in the domain the guards accept. Otherwise it names the earliest guard that
  fires.
- When the argpartition column is k (c = k), each radius is the joint-space
  distance to the k-th nearest other observation.
- The marginal counts bound the joint ones: n_x + 1 and n_y + 1 are at least
  the number of observations strictly inside the radius in the joint space.
  For a positive radius, n_x and n_y are at least the number of other
  observations inside it. At radius 0 the count is -1.
- The estimate equals psi(k) + psi(N) minus the mean of the KSG terms over the
  observations with a positive radius. It is NaN exactly when every radius is 0.

The estimator needs N > k + 1 observations. Line 272 calls
`np.argpartition(row, k + 1)`, and numpy raises unless k + 1 is an index of
the row, that is k + 1 < N. With N = k + 1 the estimator therefore raises.
`MutualInformationKnn` returns `Err(KthOutOfBounds)` whenever k + 1 >= N.

## Model

| member | source | states |
|---|---|---|
| PyValues.IntValue | sysidentpy/model_structure_selection/entropic_regression.py:199 | a Python int compares as itself, and a bool as 1 (True) or 0 (False), so `isinstance(v, int) and v < 1` holds for False |
| PyValues.GreaterOrAtMost | sysidentpy/model_structure_selection/entropic_regression.py:217 | `x > b` and `x <= b` are complementary for every float except NaN, and both are false for NaN |
| ParamValidation.Fires | sysidentpy/model_structure_selection/entropic_regression.py:199-236 | each guard, as written, fires exactly on the values outside its parameter's accepted domain that it is responsible for: a lag's bound check on ints below 1, its type check on values neither int nor list; k and n_perm unless an int >= 1; q unless a float in (0, 1] or NaN; a flag unless a bool; the model type unless NARMAX, NAR or NFIR |
| ParamValidation.RunChecks | sysidentpy/model_structure_selection/entropic_regression.py:197-236 | the guard chain accepts exactly when no guard fires; a rejection names a guard that fires, and every guard before it in source order passes |
| ParamValidation.QRangeTest | sysidentpy/model_structure_selection/entropic_regression.py:217 | the range test `q > 1 or q <= 0` is false for a float q exactly when q is in (0, 1] or NaN; for NaN both comparisons are false |
| ParamValidation.ValidateParams | sysidentpy/model_structure_selection/entropic_regression.py:197-236 | the configuration is accepted iff every parameter lies in the domain the guards accept (lags: int >= 1 or any list; k and n_perm: int >= 1; q: float in (0, 1] or NaN; both flags bool; model type one of NARMAX, NAR, NFIR), iff no guard fires; a rejection names a guard that fires, and no guard earlier in source order fires |
| ParamValidation.ValidateParamsIntended | sysidentpy/model_structure_selection/entropic_regression.py:217-220 | with the q guard also rejecting NaN, acceptance is exactly that domain with q a finite float in (0, 1]; q <= 0 stays rejected; it agrees with ValidateParams on every q that is not NaN |
| ParamValidation.SameGuardsSameOutcome | sysidentpy/model_structure_selection/entropic_regression.py:197-236 | two configurations on which the same guards fire get the same outcome |
| ParamValidation.StatedException | sysidentpy/model_structure_selection/entropic_regression.py:222-231 | the exception class named by a guard's raise statement is TypeError exactly for the two flag checks |
| ParamValidation.Raises | sysidentpy/model_structure_selection/entropic_regression.py:199-236 | the escaping exception is ValueError for the model-type guard; the stated class when `%f` can format the reported value; OverflowError exactly when that value is an int beyond the double range; and ValueError only where the stated class is |
| ParamValidation.IntLagBelowOneRejected | sysidentpy/model_structure_selection/entropic_regression.py:199-203 | an int lag below 1 (False included) is always rejected by one of the two bound checks |
| ParamValidation.ListLagNotInspected | sysidentpy/model_structure_selection/entropic_regression.py:205-209 | a list lag is accepted without looking at its elements: any two lists give the same outcome as each other and as the lag 1 |
| ParamValidation.ListLagActsAsOne | sysidentpy/model_structure_selection/entropic_regression.py:205-209 | a list lag, as ylag or as xlag, gives the outcome of the lag 1 |
| ParamValidation.OtherLagTypeRejected | sysidentpy/model_structure_selection/entropic_regression.py:199-209 | a lag that is neither an int nor a list is never accepted and is rejected by a lag guard |
| ParamValidation.CountParameters | sysidentpy/model_structure_selection/entropic_regression.py:211-215 | accepted k and n_perm are ints of at least 1; k = True passes its guard; k = 2.0 is rejected |
| ParamValidation.QBoundaryValues | sysidentpy/model_structure_selection/entropic_regression.py:217-220 | q = 1 (an int), q = 0.0 and q = +inf fire the q guard; q = 1.0 does not |
| ParamValidation.FlagsRaiseTypeError | sysidentpy/model_structure_selection/entropic_regression.py:222-231 | on a rejection, the failing guard names TypeError iff a flag is not a bool and every guard before the flag checks passes |
| ParamValidation.RaisedException | sysidentpy/model_structure_selection/entropic_regression.py:199-236 | a lag below 1 raises ValueError, or OverflowError beyond the double range, never TypeError; a lag of the wrong type raises ValueError iff it is a float, never OverflowError; a non-bool flag raises TypeError, or OverflowError for an int beyond the double range, never ValueError; OverflowError only comes from an int; ValueError only for a value `%f` formats or for the model type |
| ParamValidation.StringLagRaisesTypeError | sysidentpy/model_structure_selection/entropic_regression.py:208-209 | ylag = "2" is rejected by the ylag type guard with TypeError (from the `%f` formatting), ylag = 2.0 with ValueError |
| ParamValidation.HugeIntsOverflow | sysidentpy/model_structure_selection/entropic_regression.py:199-225 | ylag = -(2^1024 - 2^970) fails the line 199 guard and raises OverflowError, while one more raises ValueError; skip_forward = 2^1024 - 2^970 fails the line 222 guard and raises OverflowError |
| ParamValidation.DefaultsAccepted | sysidentpy/model_structure_selection/entropic_regression.py:147-167 | the constructor's default arguments pass both the as-written and the intended check |
| ParamValidation.NaNQuantileAccepted | sysidentpy/model_structure_selection/entropic_regression.py:217 | the defaults with q = NaN are accepted as written and rejected by the q guard when it also rejects NaN |
| SortedRows.CountBelow | sysidentpy/model_structure_selection/entropic_regression.py:276-277 | the number of entries strictly below the radius never exceeds the row length |
| SortedRows.Without | sysidentpy/model_structure_selection/entropic_regression.py:277 | a row with one position taken out is one shorter and keeps the other entries in order |
| SortedRows.LowerBoundKept | sysidentpy/model_structure_selection/entropic_regression.py:269 | a lower bound of a row bounds every permutation of it |
| SortedRows.Insert | sysidentpy/model_structure_selection/entropic_regression.py:269 | inserting into an ascending row gives an ascending row with the value added to its multiset |
| SortedRows.Sort | sysidentpy/model_structure_selection/entropic_regression.py:269 | `np.sort` of a row is ascending and a permutation of the row |
| SortedRows.CountBelowConcat | sysidentpy/model_structure_selection/entropic_regression.py:277 | the count below a radius adds up over a split row |
| SortedRows.CountsWithout | sysidentpy/model_structure_selection/entropic_regression.py:277 | taking one entry out of a row lowers each count by that entry's share |
| SortedRows.CountBelowAntitone | sysidentpy/model_structure_selection/entropic_regression.py:276-280 | a row that is entrywise larger has no more entries below any radius |
| SortedRows.CountsSort | sysidentpy/model_structure_selection/entropic_regression.py:269-271 | sorting a row keeps both neighbour counts |
| SortedRows.SortedCountsAt | sysidentpy/model_structure_selection/entropic_regression.py:272-274 | in an ascending row at most k entries lie below position k, and at least k + 1 lie at or below it |
| SortedRows.SortFirstIsMinimum | sysidentpy/model_structure_selection/entropic_regression.py:269 | the first entry of a sorted row is the row's least value |
| SortedRows.SortedDistanceRowNonNegative | sysidentpy/model_structure_selection/entropic_regression.py:269-271 | every entry of a sorted distance row is non-negative |
| SortedRows.SortedDistanceBounds | sysidentpy/model_structure_selection/entropic_regression.py:272-274 | in a sorted non-negative distance row, which holds a 0, the first entry is 0 and the entry at column c <= k lies between 0 and the entry at column k |
| SortedRows.KthSmallestIsKthNeighbour | sysidentpy/model_structure_selection/entropic_regression.py:269-274 | the entry at column k >= 1 of a sorted distance row has fewer than k of the other entries strictly below it and at least k at or below it |
| SortedRows.DominatedCounts | sysidentpy/model_structure_selection/entropic_regression.py:276-280 | a row entrywise at most a distance row has at least as many entries below any radius, and for a positive radius at least one more than the distance row has besides its own 0 |
| Distances.Chebyshev | sysidentpy/model_structure_selection/entropic_regression.py:270 | the p = infinity distance is non-negative, bounds every coordinate difference, is attained by one of them, and is 0 without coordinates |
| Distances.Cdist | sysidentpy/model_structure_selection/entropic_regression.py:270 | `cdist(a, b)` has one row per row of `a`, one column per row of `b`, and holds their pairwise distances |
| Distances.Concatenate | sysidentpy/model_structure_selection/entropic_regression.py:268 | row i of the joint batch is row i of y followed by row i of y_perm |
| Distances.Transpose | sysidentpy/model_structure_selection/entropic_regression.py:270 | `m.T` of a square matrix is square and swaps rows and columns |
| Distances.ChebyshevSymmetric | sysidentpy/model_structure_selection/entropic_regression.py:270 | the distance is symmetric |
| Distances.ChebyshevConcat | sysidentpy/model_structure_selection/entropic_regression.py:268-270 | the distance between concatenated rows is the larger of the distances between their parts |
| Distances.TransposeSymmetric | sysidentpy/model_structure_selection/entropic_regression.py:270 | transposing a symmetric square matrix changes nothing |
| Distances.SelfDistanceMatrix | sysidentpy/model_structure_selection/entropic_regression.py:269-271 | `cdist(a, a)` is symmetric, non-negative and zero on the diagonal, so the `.T` of line 270 changes nothing |
| Distances.JointDistanceIsMax | sysidentpy/model_structure_selection/entropic_regression.py:268-280 | the joint distance of two observations is the larger of their y distance and their y_perm distance |
| KnnMutualInformation.JointDistances | sysidentpy/model_structure_selection/entropic_regression.py:268-270 | the joint distance matrix is an N by N self-distance matrix: symmetric, non-negative, zero on the diagonal |
| KnnMutualInformation.SortRows | sysidentpy/model_structure_selection/entropic_regression.py:269 | `np.sort` of a matrix sorts every row into an ascending permutation of itself |
| KnnMutualInformation.SortedJointDistances | sysidentpy/model_structure_selection/entropic_regression.py:269-271 | row i of `np.sort(cdist(...).T)` is the sort of observation i's own joint distances |
| KnnMutualInformation.SortedJointNonNegative | sysidentpy/model_structure_selection/entropic_regression.py:269-271 | every entry of the sorted joint distance matrix is non-negative |
| KnnMutualInformation.Epsilon | sysidentpy/model_structure_selection/entropic_regression.py:272-274 | one radius per observation, each non-negative; EpsilonBounds and EpsilonIsKthNeighbourDistance state which distance it is |
| KnnMutualInformation.NeighbourCounts | sysidentpy/model_structure_selection/entropic_regression.py:276-277 | one count per observation (lines 279-280 compute the same for y_perm), between -1 and the row length minus 1; NeighbourCountFacts states what it counts |
| KnnMutualInformation.Digamma | sysidentpy/model_structure_selection/entropic_regression.py:281 | `psi(n)` at an integer is finite exactly from 1 on (poles at 0 and below) and is then psi(n) |
| KnnMutualInformation.DigammaTerms | sysidentpy/model_structure_selection/entropic_regression.py:281 | term i of `psi(nx + 1) + psi(ny + 1)` is finite exactly when both counts are at least 0 |
| KnnMutualInformation.FiniteValues | sysidentpy/model_structure_selection/entropic_regression.py:283 | `arr[np.isfinite(arr)]` is no longer than `arr` and is empty exactly when no term is finite |
| KnnMutualInformation.Mean | sysidentpy/model_structure_selection/entropic_regression.py:283 | `nanmean` gives NaN exactly for no values, and otherwise a value whose product with the count is the sum |
| KnnMutualInformation.SumBounds | sysidentpy/model_structure_selection/entropic_regression.py:283 | the sum of values between lo and hi lies between |s| lo and |s| hi |
| KnnMutualInformation.MeanWithinBounds | sysidentpy/model_structure_selection/entropic_regression.py:283 | the mean of values between lo and hi lies between lo and hi |
| KnnMutualInformation.Minus | sysidentpy/model_structure_selection/entropic_regression.py:282-284 | `a - m` is NaN exactly when m is |
| KnnMutualInformation.KsgTerms | sysidentpy/model_structure_selection/entropic_regression.py:281-284 | the reference definition of the KSG terms has at most one term per observation; FilterKeepsKsgTerms and EstimateIsKsgMean tie it to the estimator |
| KnnMutualInformation.MutualInformationKnn | sysidentpy/model_structure_selection/entropic_regression.py:238-285 | the estimator fails exactly when the batches have different row counts or k + 1 is not an index of a row, with the error numpy raises in each case |
| KnnMutualInformation.JointRow | sysidentpy/model_structure_selection/entropic_regression.py:268-271 | row i of the joint distance matrix is non-negative with 0 at i, and row i of the sorted matrix is its sort |
| KnnMutualInformation.SortedJointRows | sysidentpy/model_structure_selection/entropic_regression.py:268-271 | each sorted row is the ascending permutation of the observation's joint distances and starts with 0 |
| KnnMutualInformation.EpsilonBounds | sysidentpy/model_structure_selection/entropic_regression.py:272-274 | every radius lies between 0 and the row's entry at column k |
| KnnMutualInformation.EpsilonIsKthNeighbourDistance | sysidentpy/model_structure_selection/entropic_regression.py:268-274 | with c = k, fewer than k other observations lie strictly inside an observation's radius and at least k lie within it: the radius is the distance to the k-th nearest neighbour |
| KnnMutualInformation.ZeroRadiusIffDuplicates | sysidentpy/model_structure_selection/entropic_regression.py:272-274 | with c = k a radius is 0 exactly when at least k other observations coincide with the observation in the joint space |
| KnnMutualInformation.NeighbourCountFacts | sysidentpy/model_structure_selection/entropic_regression.py:275-280 | each count lies between -1 and N - 1; it is -1 exactly when the radius is 0; otherwise it counts the other observations strictly inside the radius |
| KnnMutualInformation.MarginalCountsDominateJoint | sysidentpy/model_structure_selection/entropic_regression.py:268-280 | n_x + 1 and n_y + 1 are at least the joint count strictly inside the radius; for a positive radius, n_x and n_y are at least the count of other observations inside it |
| KnnMutualInformation.DigammaTermAt | sysidentpy/model_structure_selection/entropic_regression.py:281 | an observation's digamma term is finite exactly when its radius is positive, and is then the KSG term |
| KnnMutualInformation.FilterKeepsKsgTerms | sysidentpy/model_structure_selection/entropic_regression.py:283 | the finite-value filter applied to terms that are finite exactly at a positive radius leaves, in order, the KSG terms of those observations |
| KnnMutualInformation.FiniteTermsAreKsgTerms | sysidentpy/model_structure_selection/entropic_regression.py:281-284 | the finite terms are, in order, the KSG terms of the observations with a positive radius |
| KnnMutualInformation.KsgTermsEmptyIff | sysidentpy/model_structure_selection/entropic_regression.py:281-284 | no KSG term remains exactly when every radius is 0 |
| KnnMutualInformation.EstimateIsKsgMean | sysidentpy/model_structure_selection/entropic_regression.py:282-285 | on valid input the estimate is psi(k) + psi(N) minus the mean of the KSG terms over the observations with a positive radius |
| KnnMutualInformation.EstimateNaNIffZeroRadii | sysidentpy/model_structure_selection/entropic_regression.py:282-285 | on valid input the estimate is NaN exactly when every radius is 0 |
| KnnMutualInformation.ColumnZeroGivesNaN | sysidentpy/model_structure_selection/entropic_regression.py:272-285 | with argpartition column c = 0 every radius is 0 and the estimate is NaN on every valid input |

## Left out

- Constructor plumbing (entropic_regression.py:144-195) is not part of this model. This covers `basis_function.degree`, `_get_max_lag`, `check_random_state` and the base-class initialisers. They run before or after the check and belong to code that is not part of this model.
- The rest of ER is not part of this model: term selection, the permutation test and the fitting.
- The other arguments of the constructor (`estimator`, `h`, `p`, `lam`, ...) are not validated by the check and are not modelled.
- Python values are limited to bool, int, float, str, list and None. Numpy scalar types and tuples are not modelled. A numpy integer is not a Python `int`, so the check would reject it.
- ParamValidation.Raises: only the value types above are modelled. The result for other objects that `%f` or `%s` accept or refuse is not stated.
- Float rounding is not modelled. A finite float is an exact real, and comparisons and distances are exact. The only rounding modelled is the int-to-double conversion bound 2^1024 - 2^970 that `%f` overflows at.
- The Minkowski metric for finite p is not modelled. Only the default p = infinity is, and `self.p` is not an argument of the model.
- The digamma function is the parameter `psi`. Its values are not modelled, only its poles at 0 and below.
- KnnMutualInformation.MutualInformationKnn: the order numpy's argpartition returns within each partition is undefined. The model takes the column it puts last among its first k + 1 as a parameter `c <= k`. For c = k it proves the radius is the k-th neighbour distance. For other c it proves only 0 <= radius <= the k-th neighbour distance. KnnMutualInformation.ColumnZeroGivesNaN covers c = 0: the estimate is then NaN.
- KnnMutualInformation.MutualInformationKnn: ties on the last sorted row can make argpartition return a column beyond k. Example: the row [0, 1, 1, 1] with k = 1 may return [0, 3]. Every row then takes its radius from that column, which can exceed the k-th neighbour distance. The precondition `c <= k` excludes this case, so the model states nothing about it.
- KnnMutualInformation.MutualInformationKnn: it requires 1 <= k, which the constructor's check guarantees. The estimator itself is not guarded against other k.
- KnnMutualInformation.MutualInformationKnn: it requires rectangular batches. Numpy rejects ragged arrays before the estimator runs.
- KnnMutualInformation.MutualInformationKnn: batches with zero columns are allowed. If only one batch has none, the joint distances are those of the other batch. If both have none, Distances.Chebyshev gives 0 for every distance, so every radius is 0 and, by KnnMutualInformation.EstimateNaNIffZeroRadii, the estimate is NaN. One-dimensional input arrays are not modelled.

## Findings

| source | as written | input that shows it | evidently intended | confidence | as-written member | corrected member |
|---|---|---|---|---|---|---|
| sysidentpy/model_structure_selection/entropic_regression.py:217 | `not isinstance(q, float) or q > 1 or q <= 0` lets NaN through, since both comparisons are false for NaN | the defaults with `q=float("nan")` are accepted | reject NaN, which the message at line 219 ("q must be float and must be between 0 and 1 inclusive") and the docstring at line 66 exclude; the corrected member keeps the code's `q <= 0` rejection although the message says inclusive | high (not executed) | ParamValidation.NaNQuantileAccepted | ParamValidation.ValidateParamsIntended |
