/** Exact binomial coefficients and the counting identities the hypergeometric
    distribution rests on. */
module Combinatorics {

  /** The number of b-element subsets of an a-element set, by Pascal's rule:
      a subset either holds the last element or it does not. It is 0
      whenever b lies outside 0..a. */
  function Subsets(a: int, b: int): (c: nat)
    ensures c > 0 <==> 0 <= b <= a
    decreases a
  {
    if b < 0 || a < b then 0
    else if b == 0 || b == a then 1
    else Subsets(a - 1, b - 1) + Subsets(a - 1, b)
  }

  /** Pascal's rule holds for every b once a is positive, including the edges
      where one of the two terms is zero. */
  lemma SubsetsPascal(a: int, b: int)
    requires a >= 1
    ensures Subsets(a, b) == Subsets(a - 1, b - 1) + Subsets(a - 1, b)
  {
  }

  /** The absorption identity b·C(a, b) = a·C(a−1, b−1). */
  lemma {:induction false} Absorption(a: int, b: int)
    requires a >= 1 && b >= 1
    ensures b * Subsets(a, b) == a * Subsets(a - 1, b - 1)
    decreases a
  {
    if b > a {
      assert Subsets(a, b) == 0 && Subsets(a - 1, b - 1) == 0;
    } else if b == a {
      assert Subsets(a, b) == 1 && Subsets(a - 1, b - 1) == 1;
    } else {
      // 1 <= b < a, so a >= 2
      SubsetsPascal(a, b);
      SubsetsPascal(a - 1, b - 1);
      Absorption(a - 1, b);
      if b >= 2 {
        Absorption(a - 1, b - 1);
      } else {
        assert Subsets(a - 2, b - 2) == 0;
      }
      AbsorptionStep(a, b, Subsets(a - 1, b - 1), Subsets(a - 1, b), Subsets(a - 2, b - 1), Subsets(a - 2, b - 2));
    }
  }

  /** The arithmetic of one absorption step, kept apart from Subsets so that
      the solver sees only multiplication. */
  lemma AbsorptionStep(a: int, b: int, x: int, y: int, z: int, w: int)
    requires x == w + z
    requires (b - 1) * x == (a - 1) * w
    requires b * y == (a - 1) * z
    ensures a * x == b * (x + y)
  {
    calc {
      a * x;
      x + (a - 1) * x;
      { assert (a - 1) * x == (a - 1) * w + (a - 1) * z; }
      x + (b - 1) * x + b * y;
      b * x + b * y;
      b * (x + y);
    }
  }

  /** m! */
  function Fact(m: nat): (f: nat)
    ensures f >= 1
  {
    if m == 0 then 1 else m * Fact(m - 1)
  }

  /** The falling factorial a·(a−1)···(a−b+1) with b factors. */
  function Falling(a: int, b: nat): int
    decreases b
  {
    if b == 0 then 1 else a * Falling(a - 1, b - 1)
  }

  /** The number of b-subsets times b! is the falling factorial of a with b
      factors: the ordered selections of b elements. */
  lemma {:induction false} SubsetsTimesFact(a: int, b: nat)
    requires b <= a
    ensures Subsets(a, b) * Fact(b) == Falling(a, b)
  {
    if b > 0 {
      SubsetsTimesFact(a - 1, b - 1);
      Absorption(a, b);
      Rescale(Subsets(a, b), b, Fact(b - 1), a, Subsets(a - 1, b - 1));
    }
  }

  /** The binomial coefficient C(a, b) of the hypergeometric point mass, by
      the multiplicative formula a·(a−1)···(a−b+1) / b!; by convention 0
      whenever b lies outside 0..a. Where 0 <= b and 0 <= a it agrees with
      Python's math.comb, which raises on a negative argument instead. */
  function Choose(a: int, b: int): (c: nat)
    ensures c > 0 <==> 0 <= b <= a
  {
    if b < 0 || a < b then 0
    else
      SubsetsTimesFact(a, b);
      DivideExact(Subsets(a, b), Fact(b), Falling(a, b));
      Falling(a, b) / Fact(b)
  }

  /** The multiplicative formula counts subsets: it agrees with Pascal's rule
      everywhere. */
  lemma ChooseCounts(a: int, b: int)
    ensures Choose(a, b) == Subsets(a, b)
  {
    if 0 <= b <= a {
      SubsetsTimesFact(a, b);
      DivideExact(Subsets(a, b), Fact(b), Falling(a, b));
    }
  }

  /** Pascal's rule for the binomial coefficient. */
  lemma Pascal(a: int, b: int)
    requires a >= 1
    ensures Choose(a, b) == Choose(a - 1, b - 1) + Choose(a - 1, b)
  {
    ChooseCounts(a, b);
    ChooseCounts(a - 1, b - 1);
    ChooseCounts(a - 1, b);
    SubsetsPascal(a, b);
  }

  /** An exact product divides back. */
  lemma DivideExact(c: int, f: int, p: int)
    requires f > 0 && c * f == p
    ensures p / f == c
  {
    var q, r := p / f, p % f;
    assert f * (c - q) == r by {
      assert p == f * q + r;
      assert f * (c - q) == c * f - f * q;
    }
    ZeroMultiple(f, c - q);
  }

  /** The only multiple of a positive f in [0, f) is 0. */
  lemma ZeroMultiple(f: int, x: int)
    requires f > 0 && 0 <= f * x < f
    ensures x == 0
  {
  }

  /** c·(b·f) = a·(d·f) whenever b·c = a·d. */
  lemma Rescale(c: int, b: int, f: int, a: int, d: int)
    requires b * c == a * d
    ensures c * (b * f) == a * (d * f)
  {
    calc {
      c * (b * f);
      (b * c) * f;
      (a * d) * f;
      a * (d * f);
    }
  }

  /** x·(y + z) = x·y + x·z */
  lemma Distribute(x: int, y: int, z: int)
    ensures x * (y + z) == x * y + x * z
  {
  }

  /** The number of n-element samples, drawn from a population with a
      successes and b failures, that hold at most m successes:
      the sum over j in 0..m of C(a, j)·C(b, n − j). */
  function SamplesAtMost(a: int, b: int, n: int, m: int): (s: nat)
    decreases m
  {
    if m < 0 then 0
    else SamplesAtMost(a, b, n, m - 1) + Choose(a, m) * Choose(b, n - m)
  }

  /** Raising the bound never lowers the count. */
  lemma {:induction false} SamplesAtMostMonotone(a: int, b: int, n: int, m: int, m': int)
    requires m <= m'
    ensures SamplesAtMost(a, b, n, m) <= SamplesAtMost(a, b, n, m')
    decreases m' - m
  {
    if m < m' {
      SamplesAtMostMonotone(a, b, n, m, m' - 1);
    }
  }

  /** A sample cannot hold more successes than the population has, nor more
      than its own size: the count is complete at min(a, n). */
  lemma {:induction false} SamplesAtMostStable(a: int, b: int, n: int, m: int)
    requires 0 <= a && 0 <= n
    requires m >= Min(a, n)
    ensures SamplesAtMost(a, b, n, m) == SamplesAtMost(a, b, n, Min(a, n))
    decreases m
  {
    if m > Min(a, n) {
      assert Choose(a, m) == 0 || Choose(b, n - m) == 0;
      SamplesAtMostStable(a, b, n, m - 1);
    }
  }

  /** A sample of n must hold at least n − b successes: no sample has fewer. */
  lemma {:induction false} SamplesAtMostBelow(a: int, b: int, n: int, m: int)
    requires 0 <= b
    requires m < n - b
    ensures SamplesAtMost(a, b, n, m) == 0
    decreases m
  {
    if m >= 0 {
      assert Choose(b, n - m) == 0;
      SamplesAtMostBelow(a, b, n, m - 1);
    }
  }

  /** With no failures in the population, only the all-success sample remains. */
  lemma {:induction false} SamplesAtMostNoFailures(a: int, n: int, m: int)
    ensures SamplesAtMost(a, 0, n, m) == if 0 <= n <= m then Choose(a, n) else 0
    decreases m
  {
    if m >= 0 {
      SamplesAtMostNoFailures(a, n, m - 1);
      assert Choose(0, n - m) == if m == n then 1 else 0;
    }
  }

  /** Pascal's rule applied to the failure count, term by term. */
  lemma {:induction false} SamplesAtMostPascal(a: int, b: int, n: int, m: int)
    requires b >= 0
    ensures SamplesAtMost(a, b + 1, n, m) == SamplesAtMost(a, b, n, m) + SamplesAtMost(a, b, n - 1, m)
    decreases m
  {
    if m >= 0 {
      SamplesAtMostPascal(a, b, n, m - 1);
      Pascal(b + 1, n - m);
      Distribute(Choose(a, m), Choose(b, n - m - 1), Choose(b, n - m));
    }
  }

  /** Vandermonde's identity: splitting n-element samples of a population of
      a + b by their number of successes counts every sample exactly once. */
  lemma {:induction false} Vandermonde(a: int, b: int, n: int)
    requires 0 <= a && 0 <= b
    ensures SamplesAtMost(a, b, n, n) == Choose(a + b, n)
    decreases b
  {
    if b == 0 {
      SamplesAtMostNoFailures(a, n, n);
    } else if n < 0 {
      assert SamplesAtMost(a, b, n, n) == 0;
    } else {
      SamplesAtMostPascal(a, b - 1, n, n);
      Vandermonde(a, b - 1, n);
      Vandermonde(a, b - 1, n - 1);
      assert Choose(b - 1, n - n) * 0 == 0;
      assert SamplesAtMost(a, b - 1, n - 1, n) == SamplesAtMost(a, b - 1, n - 1, n - 1) by {
        assert Choose(b - 1, (n - 1) - n) == 0;
      }
      Pascal(a + b, n);
    }
  }

  function Min(x: int, y: int): int { if x <= y then x else y }

  function Max(x: int, y: int): int { if x <= y then y else x }
}
