/** The hypergeometric law computed exactly: the point mass, the cumulative
    distribution as a finite sum of point masses, and the triple
    (P(X < k), P(X = k), P(X > k)) the calculator reports. */
module Distribution {
  import opened Combinatorics

  /** Validated parameters: population N, successes in it K, sample size n,
      target successes k. */
  datatype Query = Query(N: nat, K: nat, n: nat, k: nat)

  /** The parameter combinations the calculator accepts. */
  predicate Feasible(q: Query)
  {
    q.n <= q.N && q.K <= q.N && q.k <= q.n
  }

  /** The smallest number of successes a sample can hold: max(0, n − (N − K)). */
  function SupportMin(q: Query): int
  {
    Max(0, q.n - (q.N - q.K))
  }

  /** The largest number of successes a sample can hold: min(n, K). */
  function SupportMax(q: Query): int
  {
    Min(q.n, q.K)
  }

  /** P(X = x) = C(K, x)·C(N − K, n − x) / C(N, n). */
  function Pmf(q: Query, x: int): (p: real)
    requires Feasible(q)
    ensures p >= 0.0
    ensures p > 0.0 <==> SupportMin(q) <= x <= SupportMax(q)
  {
    var favourable := Choose(q.K, x) * Choose(q.N - q.K, q.n - x);
    PositiveProduct(Choose(q.K, x), Choose(q.N - q.K, q.n - x));
    favourable as real / Choose(q.N, q.n) as real
  }

  /** A product of naturals is positive exactly when both factors are. */
  lemma PositiveProduct(x: nat, y: nat)
    ensures x * y > 0 <==> x > 0 && y > 0
  {
    if x > 0 && y > 0 {
      assert x * y >= y;
    }
  }

  /** P(X <= x), the sum of the point masses at 0..x; 0 below 0. */
  function Cdf(q: Query, x: int): (p: real)
    requires Feasible(q)
    ensures p >= 0.0
    decreases x
  {
    if x < 0 then 0.0 else Cdf(q, x - 1) + Pmf(q, x)
  }

  /** The cumulative probability is the count of samples with at most x
      successes over the count of all samples. */
  lemma {:induction false} CdfCounts(q: Query, x: int)
    requires Feasible(q)
    ensures Cdf(q, x) == SamplesAtMost(q.K, q.N - q.K, q.n, x) as real / Choose(q.N, q.n) as real
    decreases x
  {
    if x >= 0 {
      CdfCounts(q, x - 1);
      AddFractions(SamplesAtMost(q.K, q.N - q.K, q.n, x - 1) as real,
                   (Choose(q.K, x) * Choose(q.N - q.K, q.n - x)) as real,
                   Choose(q.N, q.n) as real);
    }
  }

  /** s/d + t/d = (s + t)/d */
  lemma AddFractions(s: real, t: real, d: real)
    requires d > 0.0
    ensures s / d + t / d == (s + t) / d
  {
  }

  /** A count no larger than the total gives a fraction in [0, 1], and the
      total itself gives 1. */
  lemma Fraction(s: real, d: real)
    requires 0.0 <= s <= d && d > 0.0
    ensures 0.0 <= s / d <= 1.0
    ensures s == d ==> s / d == 1.0
  {
  }

  /** Every cumulative probability lies in [0, 1]. */
  lemma CdfBounded(q: Query, x: int)
    requires Feasible(q)
    ensures 0.0 <= Cdf(q, x) <= 1.0
  {
    CdfCounts(q, x);
    var top := Max(x, q.n);
    SamplesAtMostMonotone(q.K, q.N - q.K, q.n, x, top);
    SamplesAtMostStable(q.K, q.N - q.K, q.n, top);
    SamplesAtMostStable(q.K, q.N - q.K, q.n, q.n);
    Vandermonde(q.K, q.N - q.K, q.n);
    Fraction(SamplesAtMost(q.K, q.N - q.K, q.n, x) as real, Choose(q.N, q.n) as real);
  }

  /** The distribution's total mass is 1: the cdf reaches 1 at the largest
      feasible number of successes and stays there. */
  lemma CdfAtSupportMax(q: Query, x: int)
    requires Feasible(q)
    requires x >= SupportMax(q)
    ensures Cdf(q, x) == 1.0
  {
    CdfCounts(q, x);
    SamplesAtMostStable(q.K, q.N - q.K, q.n, x);
    SamplesAtMostStable(q.K, q.N - q.K, q.n, q.n);
    Vandermonde(q.K, q.N - q.K, q.n);
    Fraction(SamplesAtMost(q.K, q.N - q.K, q.n, x) as real, Choose(q.N, q.n) as real);
  }

  /** Below the smallest feasible number of successes the cdf is 0. */
  lemma {:induction false} CdfBelowSupport(q: Query, x: int)
    requires Feasible(q)
    requires x < SupportMin(q)
    ensures Cdf(q, x) == 0.0
  {
    CdfCounts(q, x);
    if x >= 0 {
      SamplesAtMostBelow(q.K, q.N - q.K, q.n, x);
    }
  }

  /** Every point mass lies in [0, 1]. */
  lemma PmfBounded(q: Query, x: int)
    requires Feasible(q)
    ensures 0.0 <= Pmf(q, x) <= 1.0
  {
    CdfBounded(q, x);
    if x >= 0 {
      assert Cdf(q, x) == Cdf(q, x - 1) + Pmf(q, x);
    }
  }

  /** The ordered triple (P(X < k), P(X = k), P(X > k)). */
  datatype Triple = Triple(less: real, exact: real, more: real)

  /** The three probabilities for the query's own k; the upper tail is the
      complement of the other two. */
  function AllProbabilities(q: Query): (t: Triple)
    requires Feasible(q)
    ensures t.less == Cdf(q, q.k - 1) && t.exact == Pmf(q, q.k)
    ensures t.less + t.exact + t.more == 1.0
    ensures 0.0 <= t.less <= 1.0 && 0.0 <= t.exact <= 1.0 && 0.0 <= t.more <= 1.0
    ensures q.k <= SupportMin(q) ==> t.less == 0.0
    ensures q.k >= SupportMax(q) ==> t.more == 0.0
    ensures q.k > SupportMax(q) ==> t.exact == 0.0
  {
    var less := Cdf(q, q.k - 1);
    var exact := Pmf(q, q.k);
    CdfBounded(q, q.k - 1);
    CdfBounded(q, q.k);
    PmfBounded(q, q.k);
    assert Cdf(q, q.k) == less + exact;
    TailEdges(q);
    Triple(less, exact, 1.0 - (less + exact))
  }

  /** The edge cases of the triple, gathered for AllProbabilities. */
  lemma TailEdges(q: Query)
    requires Feasible(q)
    ensures q.k <= SupportMin(q) ==> Cdf(q, q.k - 1) == 0.0
    ensures q.k >= SupportMax(q) ==> Cdf(q, q.k) == 1.0
  {
    if q.k <= SupportMin(q) {
      CdfBelowSupport(q, q.k - 1);
    }
    if q.k >= SupportMax(q) {
      CdfAtSupportMax(q, q.k);
    }
  }

  /** The triple from the three sample counts it is made of: samples with
      fewer than k successes, with exactly k, and all samples. */
  lemma TripleFromCounts(q: Query, less: nat, exact: nat, total: nat)
    requires Feasible(q)
    requires SamplesAtMost(q.K, q.N - q.K, q.n, q.k - 1) == less
    requires Choose(q.K, q.k) * Choose(q.N - q.K, q.n - q.k) == exact
    requires Choose(q.N, q.n) == total
    ensures AllProbabilities(q) == Triple(less as real / total as real,
                                          exact as real / total as real,
                                          (total - less - exact) as real / total as real)
  {
    CdfCounts(q, q.k - 1);
    var d := total as real;
    AddFractions(less as real, exact as real, d);
    AddFractions((total - less - exact) as real, (less + exact) as real, d);
    Fraction(d, d);
  }

  /** Swapping the roles of success and failure: drawing k successes is
      drawing n − k failures. */
  lemma Relabelling(q: Query)
    requires Feasible(q)
    ensures Feasible(Query(q.N, q.N - q.K, q.n, q.n - q.k))
    ensures Pmf(q, q.k) == Pmf(Query(q.N, q.N - q.K, q.n, q.n - q.k), q.n - q.k)
  {
    var r := Query(q.N, q.N - q.K, q.n, q.n - q.k);
    assert r.N - r.K == q.K && r.n - (q.n - q.k) == q.k;
    assert Choose(q.K, q.k) * Choose(q.N - q.K, q.n - q.k) == Choose(q.N - q.K, q.n - q.k) * Choose(q.K, q.k);
  }
}
