/**
 * Ascending sort of a row of reals (what `np.sort` does to each row of a
 * distance matrix) and the two neighbour counts the estimator takes over a
 * row: how many entries lie strictly below a radius, and how many lie at or
 * below it.
 */
module SortedRows {

  predicate Ascending(s: seq<real>) {
    forall i, j :: 0 <= i < j < |s| ==> s[i] <= s[j]
  }

  /** Number of entries of `s` strictly below `x`. */
  function CountBelow(s: seq<real>, x: real): (n: nat)
    ensures n <= |s|
  {
    if |s| == 0 then 0 else (if s[0] < x then 1 else 0) + CountBelow(s[1..], x)
  }

  /** Number of entries of `s` at or below `x`. */
  function CountAtMost(s: seq<real>, x: real): (n: nat)
    ensures n <= |s|
  {
    if |s| == 0 then 0 else (if s[0] <= x then 1 else 0) + CountAtMost(s[1..], x)
  }

  /** `s` with position `i` taken out: the other observations of a row. */
  function Without(s: seq<real>, i: nat): (r: seq<real>)
    requires i < |s|
    ensures |r| == |s| - 1
    ensures forall j :: 0 <= j < i ==> r[j] == s[j]
    ensures forall j :: i <= j < |r| ==> r[j] == s[j + 1]
  {
    s[..i] + s[i + 1..]
  }

  /** A lower bound of a sequence bounds every permutation of it. */
  lemma LowerBoundKept(b: real, t: seq<real>, r: seq<real>)
    requires forall j :: 0 <= j < |t| ==> b <= t[j]
    requires multiset(r) == multiset(t)
    ensures forall j :: 0 <= j < |r| ==> b <= r[j]
  {
    forall j | 0 <= j < |r|
      ensures b <= r[j]
    {
      assert r[j] in multiset(r);
      assert r[j] in t;
    }
  }

  /** Insert `x` into an ascending sequence. */
  function Insert(x: real, s: seq<real>): (r: seq<real>)
    requires Ascending(s)
    ensures Ascending(r)
    ensures multiset(r) == multiset(s) + multiset{x}
    ensures |r| == |s| + 1
  {
    if |s| == 0 || x <= s[0] then [x] + s
    else
      var rest := Insert(x, s[1..]);
      assert multiset(rest) == multiset(s[1..] + [x]);
      LowerBoundKept(s[0], s[1..] + [x], rest);
      assert s == [s[0]] + s[1..];
      [s[0]] + rest
  }

  /** `np.sort` of one row: the ascending permutation of `s`. */
  function Sort(s: seq<real>): (r: seq<real>)
    ensures Ascending(r)
    ensures multiset(r) == multiset(s)
    ensures |r| == |s|
  {
    if |s| == 0 then []
    else
      assert s == [s[0]] + s[1..];
      Insert(s[0], Sort(s[1..]))
  }

  // ---------------------------------------------------------------------------
  // Counting.

  lemma {:induction false} CountBelowConcat(a: seq<real>, b: seq<real>, x: real)
    ensures CountBelow(a + b, x) == CountBelow(a, x) + CountBelow(b, x)
  {
    if |a| > 0 {
      assert (a + b)[1..] == a[1..] + b;
      CountBelowConcat(a[1..], b, x);
    } else {
      assert a + b == b;
    }
  }

  lemma {:induction false} CountAtMostConcat(a: seq<real>, b: seq<real>, x: real)
    ensures CountAtMost(a + b, x) == CountAtMost(a, x) + CountAtMost(b, x)
  {
    if |a| > 0 {
      assert (a + b)[1..] == a[1..] + b;
      CountAtMostConcat(a[1..], b, x);
    } else {
      assert a + b == b;
    }
  }

  /** Taking one entry out of a row lowers each count by that entry's share. */
  lemma CountsWithout(s: seq<real>, i: nat, x: real)
    requires i < |s|
    ensures CountBelow(s, x) == CountBelow(Without(s, i), x) + (if s[i] < x then 1 else 0)
    ensures CountAtMost(s, x) == CountAtMost(Without(s, i), x) + (if s[i] <= x then 1 else 0)
  {
    assert s == s[..i] + ([s[i]] + s[i + 1..]);
    CountBelowConcat(s[..i], [s[i]] + s[i + 1..], x);
    CountBelowConcat([s[i]], s[i + 1..], x);
    CountBelowConcat(s[..i], s[i + 1..], x);
    CountAtMostConcat(s[..i], [s[i]] + s[i + 1..], x);
    CountAtMostConcat([s[i]], s[i + 1..], x);
    CountAtMostConcat(s[..i], s[i + 1..], x);
  }

  /** No entry of `s` is below `x` when `x` is a lower bound of `s`. */
  lemma {:induction false} CountBelowLowerBound(s: seq<real>, x: real)
    requires forall j :: 0 <= j < |s| ==> x <= s[j]
    ensures CountBelow(s, x) == 0
  {
    if |s| > 0 {
      CountBelowLowerBound(s[1..], x);
    }
  }

  /** Every entry of `s` is at most `x` when `x` is an upper bound of `s`. */
  lemma {:induction false} CountAtMostUpperBound(s: seq<real>, x: real)
    requires forall j :: 0 <= j < |s| ==> s[j] <= x
    ensures CountAtMost(s, x) == |s|
  {
    if |s| > 0 {
      CountAtMostUpperBound(s[1..], x);
    }
  }

  /** Counting at or below `a` never exceeds counting strictly below a larger `b`. */
  lemma {:induction false} CountAtMostBelowLarger(s: seq<real>, a: real, b: real)
    requires a < b
    ensures CountAtMost(s, a) <= CountBelow(s, b)
  {
    if |s| > 0 {
      CountAtMostBelowLarger(s[1..], a, b);
    }
  }

  /** A row that is entrywise at least another has no more entries below any radius. */
  lemma {:induction false} CountBelowAntitone(lo: seq<real>, hi: seq<real>, x: real)
    requires |lo| == |hi|
    requires forall j :: 0 <= j < |lo| ==> lo[j] <= hi[j]
    ensures CountBelow(hi, x) <= CountBelow(lo, x)
  {
    if |lo| > 0 {
      CountBelowAntitone(lo[1..], hi[1..], x);
    }
  }

  lemma {:induction false} CountsInsert(y: real, s: seq<real>, x: real)
    requires Ascending(s)
    ensures CountBelow(Insert(y, s), x) == CountBelow(s, x) + (if y < x then 1 else 0)
    ensures CountAtMost(Insert(y, s), x) == CountAtMost(s, x) + (if y <= x then 1 else 0)
  {
    if |s| == 0 || y <= s[0] {
      assert ([y] + s)[1..] == s;
    } else {
      CountsInsert(y, s[1..], x);
      assert ([s[0]] + Insert(y, s[1..]))[1..] == Insert(y, s[1..]);
    }
  }

  /** Sorting keeps both counts: they depend on the row's values only. */
  lemma {:induction false} CountsSort(s: seq<real>, x: real)
    ensures CountBelow(Sort(s), x) == CountBelow(s, x)
    ensures CountAtMost(Sort(s), x) == CountAtMost(s, x)
  {
    if |s| > 0 {
      CountsSort(s[1..], x);
      CountsInsert(s[0], Sort(s[1..]), x);
    }
  }

  /** In an ascending row, at most `k` entries lie below the entry at position
      `k`, and at least `k + 1` lie at or below it. */
  lemma SortedCountsAt(s: seq<real>, k: nat)
    requires Ascending(s)
    requires k < |s|
    ensures CountBelow(s, s[k]) <= k
    ensures CountAtMost(s, s[k]) >= k + 1
  {
    assert s == s[..k] + s[k..];
    CountBelowConcat(s[..k], s[k..], s[k]);
    CountBelowLowerBound(s[k..], s[k]);
    assert s == s[..k + 1] + s[k + 1..];
    CountAtMostConcat(s[..k + 1], s[k + 1..], s[k]);
    CountAtMostUpperBound(s[..k + 1], s[k]);
  }

  /** The first entry of the sorted row is the row's least value. */
  lemma SortFirstIsMinimum(s: seq<real>, z: real)
    requires |s| > 0
    requires z in s
    requires forall j :: 0 <= j < |s| ==> z <= s[j]
    ensures Sort(s)[0] == z
  {
    var r := Sort(s);
    assert r[0] in multiset(s) by {
      assert r[0] in multiset(r);
    }
    var j :| 0 <= j < |s| && s[j] == r[0];
    assert z <= r[0];
    assert z in multiset(r) by {
      assert z in multiset(s);
    }
    var m :| 0 <= m < |r| && r[m] == z;
    assert r[0] <= r[m];
  }

  // ---------------------------------------------------------------------------
  // Rows of a distance matrix.

  /** Row `i` of a self-distance matrix: non-negative, with 0 at position `i`
      (the observation's distance to itself). */
  predicate DistanceRow(row: seq<real>, i: nat) {
    && i < |row|
    && row[i] == 0.0
    && forall j :: 0 <= j < |row| ==> 0.0 <= row[j]
  }

  /** Every entry of a sorted distance row is non-negative. */
  lemma SortedDistanceRowNonNegative(row: seq<real>, i: nat)
    requires DistanceRow(row, i)
    ensures forall j :: 0 <= j < |row| ==> 0.0 <= Sort(row)[j]
  {
    LowerBoundKept(0.0, row, Sort(row));
  }

  /** The sorted distance row starts at 0, and its entry at column c <= k
      lies between 0 and its entry at column k. */
  lemma SortedDistanceBounds(row: seq<real>, i: nat, c: nat, k: nat)
    requires DistanceRow(row, i)
    requires c <= k < |row|
    ensures Sort(row)[0] == 0.0
    ensures 0.0 <= Sort(row)[c] <= Sort(row)[k]
  {
    SortFirstIsMinimum(row, 0.0);
    LowerBoundKept(0.0, row, Sort(row));
  }

  /** In a distance row, the entry at column k >= 1 of the sorted row is the
      distance to the k-th nearest of the others: fewer than k of them lie
      strictly below it and at least k at or below it. */
  lemma KthSmallestIsKthNeighbour(row: seq<real>, i: nat, k: nat)
    requires DistanceRow(row, i)
    requires 1 <= k < |row|
    ensures var e := Sort(row)[k];
            var others := Without(row, i);
            CountBelow(others, e) < k <= CountAtMost(others, e)
  {
    var s := Sort(row);
    var e := s[k];
    var others := Without(row, i);
    SortedDistanceBounds(row, i, k, k);
    SortedCountsAt(s, k);
    CountsSort(row, e);
    CountsWithout(row, i, e);
    if e == 0.0 {
      CountBelowLowerBound(others, e);
    }
  }

  /** A row entrywise at most a distance row has at least as many entries
      below any radius; for a positive radius it keeps that many besides the
      distance row's own 0. */
  lemma DominatedCounts(lo: seq<real>, hi: seq<real>, i: nat, x: real)
    requires |lo| == |hi|
    requires DistanceRow(hi, i)
    requires forall j :: 0 <= j < |lo| ==> lo[j] <= hi[j]
    ensures CountBelow(lo, x) >= CountBelow(hi, x)
    ensures x > 0.0 ==> CountBelow(lo, x) - 1 >= CountBelow(Without(hi, i), x)
  {
    CountBelowAntitone(lo, hi, x);
    CountsWithout(hi, i, x);
  }
}
