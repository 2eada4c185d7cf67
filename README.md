# Hypergeometric calculator, modelled in Dafny

The system computes hypergeometric probabilities. You draw n items without
replacement from a population of N that holds K successes. It reports the
probability of exactly k successes, and the triple (P(X < k), P(X = k),
P(X > k)). One object, `HypergeometricCalculator`, does all of this. It holds
the four counts and a label. Its constructor and `set_parameters` overwrite
them. Validation happens lazily, on every request for a probability.

The model has five modules:

- `Wrappers` (wrappers.dfy): `Option` for a parameter that may be unset
  (Python's `None`), and `Result` for an operation that may raise.
- `Combinatorics` (combinatorics.dfy): two definitions of binomial
  coefficients, proved equal.
  - `Choose` is the C(a, b) of the point-mass formula, computed by the
    multiplicative formula a·(a−1)···(a−b+1) / b!. By convention it is 0
    whenever b lies outside 0..a. Where 0 ≤ b and 0 ≤ a it agrees with
    Python's `math.comb`, which raises on a negative argument instead
    (l.py:2 imports `comb` but never calls it).
  - `Subsets` is the counting definition, by Pascal's rule.
  - `SamplesAtMost(a, b, n, m)` is the sum over j ≤ m of C(a, j)·C(b, n − j).
  - Vandermonde's identity is proved by induction on the number of failures.
- `Distribution` (distribution.dfy): the exact probability law over `real`.
  - `Pmf` is C(K, x)·C(N − K, n − x) / C(N, n).
  - `Cdf` is the finite sum of point masses.
  - `AllProbabilities` gives the triple, with its upper tail computed as
    `1 - (less + exact)`, as in the source.
- `Scenarios` (scenarios.dfy): the exact triples for the four queries the
  source's demonstration runs (l.py:112-122), the point mass for the hearts
  query of its disabled block (l.py:107-110), and one small query.
- `Calculator` (calculator.dfy): the class.
  - Each count field is an `Option<Value>`. A `Value` is an integer or a
    non-integer, so both the "unset" check and the "not an integer" check
    can be expressed.
  - The setter is a method with `modifies this`.
  - Validation and the two calculations only read the fields, so they are
    functions with a `reads` clause on the four count fields. They cannot
    change the object. The source's `validate_inputs` returns nothing;
    `ValidateInputs` instead returns the four validated integers as a
    `Query`, and the calculations read them from there.
  - The report is a method without a `modifies` clause. It returns either
    the table's contents or the caught error message.

The source hands the numbers to `scipy.stats.hypergeom` (l.py:1, l.py:58,
l.py:69-70), which is not part of this model. In its place the model
computes the pmf and cdf exactly. On this exact arithmetic, the triple sums
to exactly 1 and each entry lies in [0, 1]. These are proved, not
approximated.

## Model

| member | source | states |
|---|---|---|
| `Combinatorics.Choose` | l.py:58 | C(a, b) is positive exactly when 0 ≤ b ≤ a, and 0 outside that range |
| `Combinatorics.ChooseCounts` | l.py:58 | the multiplicative formula a·(a−1)···(a−b+1)/b! equals the number of b-subsets of an a-set, for every a and b |
| `Combinatorics.SubsetsTimesFact` | l.py:58 | the number of b-subsets times b! is the falling factorial of a with b factors |
| `Combinatorics.Pascal` | l.py:58 | C(a, b) = C(a−1, b−1) + C(a−1, b) for every b once a ≥ 1 |
| `Combinatorics.Absorption` | l.py:58 | b·C(a, b) = a·C(a−1, b−1) |
| `Combinatorics.Vandermonde` | l.py:69-71 | the sum over j of C(a, j)·C(b, n−j) equals C(a+b, n): the point masses of the distribution add up to the total number of samples |
| `Combinatorics.SamplesAtMostStable` | l.py:70 | the count of samples with at most m successes stops growing once m ≥ min(a, n) |
| `Combinatorics.SamplesAtMostBelow` | l.py:70 | no sample has fewer than n − b successes |
| `Combinatorics.SamplesAtMostMonotone` | l.py:70 | the count of samples with at most m successes never decreases as m grows |
| `Distribution.Pmf` | l.py:58 | P(X = x) is non-negative, and positive exactly on the support max(0, n−(N−K)) ≤ x ≤ min(n, K) |
| `Distribution.PmfBounded` | l.py:58 | every point mass lies in [0, 1] |
| `Distribution.Cdf` | l.py:70 | the cumulative probability is non-negative |
| `Distribution.CdfCounts` | l.py:70 | P(X ≤ x) is the number of samples with at most x successes divided by C(N, n) |
| `Distribution.CdfBounded` | l.py:70 | every cumulative probability lies in [0, 1] |
| `Distribution.CdfAtSupportMax` | l.py:69-71 | P(X ≤ x) = 1 for every x ≥ min(n, K): the total mass is 1 |
| `Distribution.CdfBelowSupport` | l.py:70 | P(X ≤ x) = 0 below the smallest feasible number of successes, in particular at x = k−1 when k = 0 |
| `Distribution.AllProbabilities` | l.py:67-73 | the triple is (cdf at k−1, pmf at k, the rest); it sums to 1; each entry is in [0, 1]; P(X<k) = 0 when k is at or below the support minimum; P(X>k) = 0 when k is at or above the support maximum; P(X=k) = 0 above it |
| `Distribution.TripleFromCounts` | l.py:69-73 | the triple equals the three sample counts (fewer than k, exactly k, all) divided by C(N, n) |
| `Distribution.Relabelling` | l.py:58 | exchanging successes and failures maps P(X = k) for (N, K, n) to P(X = n−k) for (N, N−K, n) |
| `Scenarios.HeartsFromADeck` | l.py:107-110 | two hearts in five cards from a 52-card deck has probability 712842/2598960, which is 27.43% to two decimals |
| `Scenarios.NoSuccessInFourDraws` | l.py:69-73 | for N=10, K=5, n=4, k=0 the triple is exactly (0, 5/210, 205/210) |
| `Scenarios.ThreeOneDropsByTurnFive` | l.py:112-113 | for N=99, K=22, n=13, k=3 the triple is exactly the three given fractions of 6186171974825304 (40.99%, 27.31%, 31.70%) |
| `Scenarios.OneRampByTurnThree` | l.py:115-116 | for N=99, K=10, n=9, k=1 the triple is exactly 635627275767, 706252528630 and 389151141247 over 1731030945644 (36.72%, 40.80%, 22.48%) |
| `Scenarios.FourLandsByTurnFive` | l.py:118-119 | for N=99, K=37, n=13, k=4 the triple is exactly the three given fractions of 6186171974825304 (20.40%, 21.66%, 57.94%) |
| `Scenarios.TwoRemovalByTurnFive` | l.py:121-122 | for N=99, K=13, n=13, k=2 the triple is exactly the three given fractions of 6186171974825304 (46.20%, 30.85%, 22.95%) |
| `Calculator.MessageIdentifiesError` | l.py:41-48 | the four validation errors carry four different texts ("All parameters must be set before calculating", "… must be integers", "… must be non-negative", "Invalid parameter combinations"), so the message tells which check failed |
| `Calculator.HypergeometricCalculator.constructor` | l.py:5-20 | the new object holds exactly the given four parameters and label |
| `Calculator.HypergeometricCalculator.Default` | l.py:5-20 | a calculator built without arguments has all four parameters unset and the default label |
| `Calculator.HypergeometricCalculator.SetParameters` | l.py:22-29 | the four parameters are overwritten with the given values; the label is replaced only when a name is given, otherwise it keeps its old value |
| `Calculator.HypergeometricCalculator.ValidateInputs` | l.py:39-48 | fails with "unset" exactly when a parameter is None; with "not an integer" exactly when all are set and one is not an integer; with "negative" exactly when all are integers and one is below 0; with "invalid combination" exactly when all are non-negative integers and n > N, K > N or k > n; otherwise succeeds with the four integers, which are then feasible |
| `Calculator.HypergeometricCalculator.CalculateProbability` | l.py:50-58 | validation runs first; its error propagates and no probability is produced; otherwise the result is P(X = k), which lies in [0, 1] |
| `Calculator.HypergeometricCalculator.CalculateAllProbabilities` | l.py:60-73 | validation runs first; its error propagates; otherwise the triple is (cdf at k−1, pmf at k, the rest), it sums to 1, each entry is in [0, 1], P(X<k) = 0 when k = 0, and P(X>k) = 0 when k ≥ min(n, K) |
| `Calculator.HypergeometricCalculator.DisplayProbabilities` | l.py:75-100 | on a validation error the report is "Error: " followed by that error's message; otherwise it shows the label, the four parameters and the triple; no field changes |
| `Calculator.SameParametersSameProbabilities` | l.py:60-73 | two calculators with the same four parameters give the same results, whatever their labels, so repeated calls on unchanged parameters agree |

## Left out

- `get_user_inputs` (l.py:31-37) reads from the console and parses text with `int()`. That is I/O. When every input parses, its effect on the object is the same as `SetParameters` with every argument given. When `int()` raises partway, the label and the counts read so far have already been overwritten. That partial update is not modelled.
- The text layout of `display_probabilities` (l.py:80-97) is not modelled: the printed lines, the percentages to two decimals, and the centring in 22- and 80-character columns. `DisplayProbabilities` returns the values the table shows, or the error text.
- `scipy.stats.hypergeom.pmf` and `.cdf` (l.py:58, l.py:69-70) compute in floating point and are not part of this model. `Pmf` and `Cdf` compute the same quantities exactly, over `real`, for a population of at least one item.
- The floating-point rounding of `1 - (prob_less + prob_exact)` (l.py:71) is not modelled. In floats it can give a tiny negative P(X > k). On exact reals it cannot, and `AllProbabilities` proves the value is in [0, 1].
- The empty population (N = K = n = k = 0) passes `validate_inputs` (l.py:39-48). scipy's `hypergeom` is not part of this model, and it requires a positive population, so the source would report nan there. The model instead gives the triple (0, 1, 0), the law of the empty sample.
- The printing in the demonstration block under `__main__` (l.py:103-136) is not modelled. The four queries it runs (l.py:112-122) and the hearts query of its disabled block (l.py:107-110) appear as lemmas in `Scenarios`.
- Python accepts any object as a parameter. The model keeps only the distinction validation makes: an integer (`Int`) or anything else (`NonInteger`). Python's `bool` counts as an `int` there, so `True` would be `Int(1)`.
- `Calculator.HypergeometricCalculator.constructor` takes the label as a string. Python would also accept `name=None` there and store `None` as the label. That case is not modelled.
