/** The calculator object: five fields set by its constructor and setter,
    validated lazily each time a probability is asked for. */
module Calculator {
  import opened Wrappers
  import opened Distribution

  /** A parameter as the object may hold it: an integer, or a value of any
      other type (a float, a string, ...), which validation rejects. */
  datatype Value = Int(i: int) | NonInteger

  /** The reasons validation raises, checked in this order. */
  datatype ValidationError = Unset | NotInteger | Negative | InvalidCombination

  /** The text the raised error carries. */
  function Message(e: ValidationError): string
  {
    match e
    case Unset => "All parameters must be set before calculating"
    case NotInteger => "All parameters must be integers"
    case Negative => "All parameters must be non-negative"
    case InvalidCombination => "Invalid parameter combinations"
  }

  /** Each validation error carries its own text, so the printed message
      tells which check failed. */
  lemma MessageIdentifiesError(e: ValidationError, e': ValidationError)
    ensures Message(e) == Message(e') <==> e == e'
  {
    if e != e' {
      assert Message(e)[4] != Message(e')[4] || |Message(e)| != |Message(e')|;
    }
  }

  /** The label a calculator gets when none is given. */
  const DefaultName: string := "Hypergeometric Probability"

  /** What the report shows: the label, the parameters and the three
      probabilities, or the caught validation error. */
  datatype Report =
    | Table(name: string, N: int, K: int, n: int, k: int, probabilities: Triple)
    | Error(message: string)

  class HypergeometricCalculator {
    var N: Option<Value>  // population size
    var K: Option<Value>  // successes in the population
    var n: Option<Value>  // sample size
    var k: Option<Value>  // target number of successes
    var name: string      // description of the probability

    /** A calculator holding the given parameters and label. */
    constructor (N: Option<Value>, K: Option<Value>, n: Option<Value>, k: Option<Value>, name: string)
      ensures this.N == N && this.K == K && this.n == n && this.k == k
      ensures this.name == name
    {
      this.N := N;
      this.K := K;
      this.n := n;
      this.k := k;
      this.name := name;
    }

    /** A calculator with every parameter unset and the default label. */
    constructor Default()
      ensures N == None && K == None && n == None && k == None
      ensures name == DefaultName
    {
      N := None;
      K := None;
      n := None;
      k := None;
      name := DefaultName;
    }

    /** Overwrites the four parameters; the label only when one is given. */
    method SetParameters(N: Option<Value>, K: Option<Value>, n: Option<Value>, k: Option<Value>,
                         name: Option<string>)
      modifies this
      ensures this.N == N && this.K == K && this.n == n && this.k == k
      ensures this.name == if name.Some? then name.value else old(this.name)
    {
      this.N := N;
      this.K := K;
      this.n := n;
      this.k := k;
      if name.Some? {
        this.name := name.value;
      }
    }

    /** The validation chain: unset, then non-integer, then negative, then an
        infeasible combination; on success, the validated parameters. */
    function ValidateInputs(): (r: Result<Query, ValidationError>)
      reads this`N, this`K, this`n, this`k
      ensures r == Failure(Unset) <==> N == None || K == None || n == None || k == None
      ensures r == Failure(NotInteger) <==>
        N != None && K != None && n != None && k != None &&
        (N.value == NonInteger || K.value == NonInteger || n.value == NonInteger || k.value == NonInteger)
      ensures r == Failure(Negative) <==>
        N != None && K != None && n != None && k != None &&
        N.value.Int? && K.value.Int? && n.value.Int? && k.value.Int? &&
        (N.value.i < 0 || K.value.i < 0 || n.value.i < 0 || k.value.i < 0)
      ensures r == Failure(InvalidCombination) <==>
        N != None && K != None && n != None && k != None &&
        N.value.Int? && K.value.Int? && n.value.Int? && k.value.Int? &&
        N.value.i >= 0 && K.value.i >= 0 && n.value.i >= 0 && k.value.i >= 0 &&
        (n.value.i > N.value.i || K.value.i > N.value.i || k.value.i > n.value.i)
      ensures r.Success? ==>
        N == Some(Int(r.value.N)) && K == Some(Int(r.value.K)) &&
        n == Some(Int(r.value.n)) && k == Some(Int(r.value.k)) &&
        Feasible(r.value)
    {
      var fields := [N, K, n, k];
      assert forall x <- fields :: x == N || x == K || x == n || x == k;
      if None in fields then Failure(Unset)
      else if !(forall x <- fields :: x.value.Int?) then Failure(NotInteger)
      else if exists x <- fields :: x.value.i < 0 then Failure(Negative)
      else if n.value.i > N.value.i || K.value.i > N.value.i || k.value.i > n.value.i then
        Failure(InvalidCombination)
      else Success(Query(N.value.i, K.value.i, n.value.i, k.value.i))
    }

    /** P(X = k), after validation; a validation error propagates. */
    function CalculateProbability(): (r: Result<real, ValidationError>)
      reads this`N, this`K, this`n, this`k
      ensures r.Failure? <==> ValidateInputs().Failure?
      ensures r.Failure? ==> r.error == ValidateInputs().error
      ensures r.Success? ==> 0.0 <= r.value <= 1.0
      ensures r.Success? ==> r.value == Pmf(ValidateInputs().value, k.value.i)
    {
      match ValidateInputs()
      case Failure(e) => Failure(e)
      case Success(q) =>
        PmfBounded(q, q.k);
        Success(Pmf(q, q.k))
    }

    /** (P(X < k), P(X = k), P(X > k)), after validation; a validation error
        propagates. */
    function CalculateAllProbabilities(): (r: Result<Triple, ValidationError>)
      reads this`N, this`K, this`n, this`k
      ensures r.Failure? <==> ValidateInputs().Failure?
      ensures r.Failure? ==> r.error == ValidateInputs().error
      ensures r.Success? ==>
        var q := ValidateInputs().value;
        r.value.less == Cdf(q, q.k - 1) && r.value.exact == Pmf(q, q.k) &&
        r.value.less + r.value.exact + r.value.more == 1.0 &&
        0.0 <= r.value.less <= 1.0 && 0.0 <= r.value.exact <= 1.0 && 0.0 <= r.value.more <= 1.0 &&
        (q.k == 0 ==> r.value.less == 0.0) &&
        (q.k >= SupportMax(q) ==> r.value.more == 0.0)
    {
      match ValidateInputs()
      case Failure(e) => Failure(e)
      case Success(q) =>
        assert q.k == 0 ==> q.k <= SupportMin(q);
        Success(AllProbabilities(q))
    }

    /** The report: the table of probabilities, or the caught validation
        error as "Error: <message>". Changes no field. */
    method DisplayProbabilities() returns (report: Report)
      ensures report.Error? <==> ValidateInputs().Failure?
      ensures report.Error? ==> report.message == "Error: " + Message(ValidateInputs().error)
      ensures report.Table? ==>
        report.name == name &&
        Some(Int(report.N)) == N && Some(Int(report.K)) == K &&
        Some(Int(report.n)) == n && Some(Int(report.k)) == k &&
        report.probabilities == CalculateAllProbabilities().value
    {
      var r := CalculateAllProbabilities();
      match r
      case Failure(e) =>
        report := Error("Error: " + Message(e));
      case Success(t) =>
        report := Table(name, N.value.i, K.value.i, n.value.i, k.value.i, t);
    }
  }

  /** The probabilities depend on the four parameters alone: two calculators
      holding the same parameters (whatever their labels, and however often
      asked) give the same results. */
  lemma SameParametersSameProbabilities(a: HypergeometricCalculator, b: HypergeometricCalculator)
    requires a.N == b.N && a.K == b.K && a.n == b.n && a.k == b.k
    ensures a.CalculateProbability() == b.CalculateProbability()
    ensures a.CalculateAllProbabilities() == b.CalculateAllProbabilities()
  {
  }
}
