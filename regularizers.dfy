/**
 * Built-in regularizers: penalties computed from a tensor of weights or
 * activations and added to the training loss.
 *
 *  - `Regularizer`, the null regularizer, whose penalty is always zero;
 *  - `L1L2`, the penalty l1 * sum |x| + l2 * sum x^2, with its configuration
 *    round trip (`GetConfig` / `FromConfig`);
 *  - `EigenvalueRegularizer`, which estimates the dominant eigenvalue of the
 *    Gram matrix x^T x of a rank-2 tensor by nine steps of the power method;
 *  - `Get`, which resolves a user-supplied identifier into a regularizer;
 *  - the legacy `WeightRegularizer` and `ActivityRegularizer`, which bind
 *    once to a parameter tensor or to a layer and add their penalty to a loss
 *    only in the training phase;
 *  - the alias constructors (`L1`, `L2`, `L1AndL2`, `L1L2Legacy`,
 *    `ActivityL1`, `ActivityL2`, `ActivityL1L2`).
 */
module Regularizers {
  import opened Backend

  // ---------------------------------------------------------------------
  // Errors, optional values and results

  /** The exceptions the module raises, by their Python class. */
  datatype Error =
    | ValueError(message: string)
    | TypeError(message: string)
    | Exception(message: string)

  datatype Option<T> = None | Some(value: T)

  datatype Result<T> = Ok(value: T) | Err(error: Error)

  /** The result of an operation that returns nothing or raises. */
  datatype Outcome = Pass | Fail(error: Error)

  // Messages in Python 3's wording; the unexpected-keyword message leaves out
  // the offending keyword's name, which Python appends.
  const UnexpectedKeyword := "__init__() got an unexpected keyword argument"
  const MissingArgument := "__init__() missing 1 required positional argument: 'k'"
  const TakesNoArguments := "Regularizer() takes no arguments"
  const NotAFloat := "float() argument must be a string or a number"
  const NotConvertible := "could not convert string to float"
  const InterpretErrorPrefix := "Could not interpret regularizer identifier: "
  const RankMessage := "EigenvalueRegularizer is only available for tensors of rank 2."
  const WeightReuseMessage := "Regularizers cannot be reused. Instantiate one regularizer per layer."
  const ActivityReuseMessage := "Regularizers cannot be reused"
  const SetParamFirstMessage :=
    "Need to call `set_param` on WeightRegularizer instance before calling the instance. "
    + "Check that you are not passing a WeightRegularizer instead of an ActivityRegularizer "
    + "(i.e. activity_regularizer=\"l2\" instead of activity_regularizer=\"activity_l2\"."
  const SetLayerFirstMessage :=
    "Need to call `set_layer` on ActivityRegularizer instance before calling the instance."

  // ---------------------------------------------------------------------
  // Configuration dictionaries

  /** A value stored in a configuration dictionary. */
  datatype Entry = Number(x: real) | Text(s: string) | Nested(d: map<string, Entry>)

  type Dict = map<string, Entry>

  /**
   * The keyword argument `key` of a constructor whose parameter defaults to
   * 0., converted to a float: text is a ValueError, a nested dictionary a
   * TypeError.
   */
  function FloatArgument(config: Dict, key: string): (r: Result<real>)
    ensures key !in config ==> r == Ok(0.0)
    ensures key in config ==> (r.Ok? <==> config[key].Number?)
    ensures key in config && config[key].Number? ==> r == Ok(config[key].x)
    ensures key in config && config[key].Text? ==> r == Err(ValueError(NotConvertible))
    ensures key in config && config[key].Nested? ==> r == Err(TypeError(NotAFloat))
  {
    if key !in config then Ok(0.0)
    else
      match config[key]
      case Number(x) => Ok(x)
      case Text(_) => Err(ValueError(NotConvertible))
      case Nested(_) => Err(TypeError(NotAFloat))
  }

  /**
   * Binds `config`, passed as keyword arguments, to the parameters
   * `(l1=0., l2=0.)` shared by the L1L2, WeightRegularizer and
   * ActivityRegularizer constructors.
   */
  function L1L2Arguments(config: Dict): (r: Result<(real, real)>)
    ensures r.Ok? <==> config.Keys <= {"l1", "l2"} && forall key :: key in config ==> config[key].Number?
    ensures !(config.Keys <= {"l1", "l2"}) ==> r == Err(TypeError(UnexpectedKeyword))
    ensures r.Ok? ==> r.value.0 == (if "l1" in config then config["l1"].x else 0.0)
    ensures r.Ok? ==> r.value.1 == (if "l2" in config then config["l2"].x else 0.0)
    ensures config.Keys <= {"l1", "l2"} && FloatArgument(config, "l1").Err? ==>
              r == Err(FloatArgument(config, "l1").error)
    ensures config.Keys <= {"l1", "l2"} && FloatArgument(config, "l1").Ok? && FloatArgument(config, "l2").Err? ==>
              r == Err(FloatArgument(config, "l2").error)
  {
    if !(config.Keys <= {"l1", "l2"}) then Err(TypeError(UnexpectedKeyword))
    else
      match FloatArgument(config, "l1")
      case Err(e) => Err(e)
      case Ok(l1) =>
        match FloatArgument(config, "l2")
        case Err(e) => Err(e)
        case Ok(l2) => Ok((l1, l2))
  }

  // ---------------------------------------------------------------------
  // The base regularizer

  /** The base class, whose penalty is zero. */
  datatype Regularizer = Regularizer {

    /** The penalty of a tensor of any shape. */
    function Call(x: Tensor): (r: real)
      ensures r == 0.0
    {
      0.0
    }

    /** `cls(**config)` for the base class, whose constructor takes no arguments. */
    static function FromConfig(config: Dict): (r: Result<Regularizer>)
      ensures r.Ok? <==> config == map[]
      ensures r.Err? ==> r.error.TypeError?
    {
      if config == map[] then Ok(Regularizer) else Err(TypeError(TakesNoArguments))
    }
  }

  // ---------------------------------------------------------------------
  // The L1/L2 penalty

  /** The penalty l1 * sum |x_i| + l2 * sum x_i^2. */
  function L1L2Penalty(l1: real, l2: real, xs: seq<real>): real
  {
    l1 * Sum(AbsAll(xs)) + l2 * Sum(SquareAll(xs))
  }

  /**
   * One `if coefficient:` step of the source: `c * xs` is summed into
   * `total` only when `c` is non-zero.
   */
  method AddIfNonZero(total: real, c: real, xs: seq<real>) returns (t: real)
    ensures t == total + c * Sum(xs)
  {
    t := total;
    if c != 0.0 {
      SumScale(c, xs);
      t := t + Sum(ScaleAll(c, xs));
    }
  }

  /**
   * Adds the L1/L2 penalty of `xs` to `start` the way the source does: a
   * term is summed only when its coefficient is non-zero.
   */
  method AccumulatePenalty(start: real, l1: real, l2: real, xs: seq<real>) returns (total: real)
    ensures total == start + L1L2Penalty(l1, l2, xs)
  {
    total := AddIfNonZero(start, l1, AbsAll(xs));
    total := AddIfNonZero(total, l2, SquareAll(xs));
  }

  /** With non-negative coefficients the penalty is non-negative. */
  lemma {:induction false} L1L2PenaltyNonNegative(l1: real, l2: real, xs: seq<real>)
    requires 0.0 <= l1 && 0.0 <= l2
    ensures 0.0 <= L1L2Penalty(l1, l2, xs)
  {
    AbsAndSquareSumsNonNegative(xs);
    ProductNonNegative(l1, Sum(AbsAll(xs)));
    ProductNonNegative(l2, Sum(SquareAll(xs)));
  }

  lemma ProductNonNegative(a: real, b: real)
    requires 0.0 <= a && 0.0 <= b
    ensures 0.0 <= a * b
  {
  }

  /** Regularization factors l1 and l2. */
  datatype L1L2 = L1L2(l1: real := 0.0, l2: real := 0.0) {

    /** The penalty of `x`, whatever its shape. */
    method Call(x: Tensor) returns (r: real)
      ensures r == L1L2Penalty(l1, l2, x.data)
    {
      r := AccumulatePenalty(0.0, l1, l2, x.data);
    }

    /** The configuration: exactly the keys "l1" and "l2", as floats. */
    function GetConfig(): (config: Dict)
      ensures config.Keys == {"l1", "l2"}
      ensures config["l1"] == Number(l1) && config["l2"] == Number(l2)
    {
      map["l1" := Number(l1), "l2" := Number(l2)]
    }

    /** `L1L2(**config)`. */
    static function FromConfig(config: Dict): (r: Result<L1L2>)
      ensures r.Ok? <==> L1L2Arguments(config).Ok?
      ensures r.Ok? ==> r.value == L1L2(L1L2Arguments(config).value.0, L1L2Arguments(config).value.1)
      ensures r.Err? ==> r.error == L1L2Arguments(config).error
    {
      match L1L2Arguments(config)
      case Err(e) => Err(e)
      case Ok(args) => Ok(L1L2(args.0, args.1))
    }
  }

  /** Reading back a saved configuration rebuilds the same regularizer. */
  lemma ConfigRoundTrip(r: L1L2)
    ensures L1L2.FromConfig(r.GetConfig()) == Ok(r)
  {
    var config := r.GetConfig();
    assert config.Keys <= {"l1", "l2"};
    assert forall key :: key in config ==> config[key].Number?;
  }

  /** A missing coefficient defaults to zero. */
  lemma FromConfigDefaults(l: real)
    ensures L1L2.FromConfig(map[]) == Ok(L1L2(0.0, 0.0))
    ensures L1L2.FromConfig(map["l1" := Number(l)]) == Ok(L1L2(l, 0.0))
    ensures L1L2.FromConfig(map["l2" := Number(l)]) == Ok(L1L2(0.0, l))
  {
    var justL1: Dict := map["l1" := Number(l)];
    var justL2: Dict := map["l2" := Number(l)];
    assert justL1.Keys <= {"l1", "l2"} && "l2" !in justL1;
    assert justL2.Keys <= {"l1", "l2"} && "l1" !in justL2;
  }

  /** The base regularizer and L1L2(0, 0) give the same penalty on every tensor. */
  lemma {:induction false} NullAgreesWithZeroCoefficients(x: Tensor)
    ensures Regularizer().Call(x) == L1L2Penalty(0.0, 0.0, x.data)
  {
  }

  /** `l1_l2`: an L1L2 with both factors defaulting to 0.01. */
  function L1AndL2(l1: real := 0.01, l2: real := 0.01): (r: L1L2)
    ensures r.l1 == l1 && r.l2 == l2
  {
    L1L2(l1, l2)
  }

  // ---------------------------------------------------------------------
  // Identifier resolution

  /** What a caller may pass to `Get`, classified by its Python type. */
  datatype Identifier<R> =
    | NoneValue
    | DictValue(d: Dict)
    | StringValue(s: string)
    | CallableValue(f: R)
    | OtherValue(text: string)   // `text` is str(identifier)

  /** The configuration a bare class name stands for. */
  function NameConfig(name: string): (config: Dict)
    ensures config.Keys == {"class_name", "config"}
    ensures config["class_name"] == Text(name) && config["config"] == Nested(map[])
  {
    map["class_name" := Text(name), "config" := Nested(map[])]
  }

  function Found<R>(r: Result<R>): Result<Option<R>>
  {
    match r
    case Ok(v) => Ok(Some(v))
    case Err(e) => Err(e)
  }

  /**
   * Resolves an identifier; `deserialize` is the registry lookup, which is
   * outside this module.
   */
  function Get<R>(identifier: Identifier<R>, deserialize: Dict -> Result<R>): (r: Result<Option<R>>)
    ensures r == Ok(None) <==> identifier.NoneValue?
    ensures identifier.CallableValue? ==> r == Ok(Some(identifier.f))
    ensures identifier.DictValue? ==> r.Ok? == deserialize(identifier.d).Ok?
    ensures identifier.DictValue? && r.Ok? ==> r.value == Some(deserialize(identifier.d).value)
    ensures identifier.DictValue? && r.Err? ==> r.error == deserialize(identifier.d).error
    ensures identifier.StringValue? ==> r.Ok? == deserialize(NameConfig(identifier.s)).Ok?
    ensures identifier.StringValue? && r.Ok? ==> r.value == Some(deserialize(NameConfig(identifier.s)).value)
    ensures identifier.StringValue? && r.Err? ==> r.error == deserialize(NameConfig(identifier.s)).error
    ensures identifier.OtherValue? ==> r.Err? && r.error.ValueError?
    ensures identifier.OtherValue? ==>
              (|identifier.text| <= |r.error.message|
               && r.error.message[|r.error.message| - |identifier.text|..] == identifier.text)
    ensures r.Err? ==> identifier.OtherValue? || identifier.DictValue? || identifier.StringValue?
  {
    match identifier
    case NoneValue => Ok(None)
    case DictValue(d) => Found(deserialize(d))
    case StringValue(s) => Found(deserialize(NameConfig(s)))
    case CallableValue(f) => Ok(Some(f))
    case OtherValue(text) => Err(ValueError(InterpretErrorPrefix + text))
  }

  /** A class name is shorthand for its configuration with no parameters. */
  lemma GetNameIsEmptyConfig<R>(name: string, deserialize: Dict -> Result<R>)
    ensures Get(StringValue(name), deserialize) == Get(DictValue(NameConfig(name)), deserialize)
  {
  }

  // ---------------------------------------------------------------------
  // The eigenvalue regularizer

  /** Number of power-method multiplications. */
  const PowerIterations := 9

  /** A floating-point quotient, over exact reals. */
  datatype Estimate = Value(x: real) | NotANumber | PositiveInfinity | NegativeInfinity

  /** IEEE division of `num` by `den`. */
  function Quotient(num: real, den: real): (e: Estimate)
    ensures den != 0.0 ==> e == Value(num / den)
    ensures den == 0.0 ==> (e.NotANumber? <==> num == 0.0)
    ensures den == 0.0 && 0.0 < num ==> e == PositiveInfinity
    ensures den == 0.0 && num < 0.0 ==> e == NegativeInfinity
  {
    if den != 0.0 then Value(num / den)
    else if num == 0.0 then NotANumber
    else if 0.0 < num then PositiveInfinity
    else NegativeInfinity
  }

  lemma ShapeOfMatrix(shape: seq<nat>)
    requires |shape| == 2
    ensures Size(shape) == shape[0] * shape[1]
  {
    assert Size(shape[1..]) == shape[1] * Size(shape[2..]);
  }

  lemma PeelRow(rows: nat, cols: nat)
    requires 0 < rows
    ensures rows * cols == cols + (rows - 1) * cols
  {
  }

  /** `data`, of rows * cols elements, cut into rows of `cols` elements. */
  function Chunks(data: seq<real>, rows: nat, cols: nat): (m: Matrix)
    requires |data| == rows * cols
    ensures |m| == rows && IsMatrix(m, cols)
    decreases rows
  {
    if rows == 0 then []
    else
      PeelRow(rows, cols);
      [data[..cols]] + Chunks(data[cols..], rows - 1, cols)
  }

  /** The rows of a rank-2 tensor, read in row-major order. */
  function Rows(x: Tensor): (m: Matrix)
    requires |x.shape| == 2
    ensures |m| == x.shape[0] && IsMatrix(m, x.shape[1])
  {
    ShapeOfMatrix(x.shape);
    Chunks(x.data, x.shape[0], x.shape[1])
  }

  /** The Gram matrix x^T x of a rank-2 tensor. */
  function Covariance(x: Tensor): (c: Matrix)
    requires |x.shape| == 2
    ensures |c| == x.shape[1] && IsMatrix(c, x.shape[1])
  {
    MatMul(Transpose(Rows(x), x.shape[1]), Rows(x), x.shape[1])
  }

  /** `c` applied `k` times to `v`. */
  function PowerIterate(c: Matrix, v: seq<real>, k: nat): (w: seq<real>)
    requires |c| == |v| && IsMatrix(c, |v|)
    ensures |w| == |v|
  {
    if k == 0 then v else MatVec(c, PowerIterate(c, v, k - 1))
  }

  /**
   * The power-method estimate of the dominant eigenvalue of the n x n matrix
   * `c`: with v = c^9 1, the quotient (c v)^T v / v^T v.
   */
  function PowerMethod(c: Matrix, n: nat): Estimate
    requires |c| == n && IsMatrix(c, n)
  {
    var v := PowerIterate(c, Ones(n), PowerIterations);
    Quotient(Dot(MatVec(c, v), v), Dot(v, v))
  }

  /** The penalty `gain * sqrt(eigenvalue)`, before the square root is taken. */
  datatype EigenvaluePenalty = EigenvaluePenalty(gain: real, eigenvalue: Estimate)

  /** Eigenvalue decay with regularization gain `k`. */
  datatype EigenvalueRegularizer = EigenvalueRegularizer(k: real) {

    method Call(x: Tensor) returns (r: Result<EigenvaluePenalty>)
      ensures r.Err? <==> |x.shape| != 2
      ensures r.Err? ==> r.error == ValueError(RankMessage)
      ensures r.Ok? ==> r.value == EigenvaluePenalty(k, PowerMethod(Covariance(x), x.shape[1]))
    {
      if |x.shape| != 2 {
        return Err(ValueError(RankMessage));
      }
      var rows := Rows(x);
      var dim := x.shape[1];
      var covariance := MatMul(Transpose(rows, dim), rows, dim);
      var o := Ones(dim);
      var mainEigenvect := MatVec(covariance, o);
      for n := 0 to PowerIterations - 1
        invariant mainEigenvect == PowerIterate(covariance, o, n + 1)
      {
        mainEigenvect := MatVec(covariance, mainEigenvect);
      }
      var covarianceD := MatVec(covariance, mainEigenvect);
      var mainEigenval := Quotient(Dot(covarianceD, mainEigenvect), Dot(mainEigenvect, mainEigenvect));
      r := Ok(EigenvaluePenalty(k, mainEigenval));
    }

    /** `EigenvalueRegularizer(**config)`. */
    static function FromConfig(config: Dict): (r: Result<EigenvalueRegularizer>)
      ensures r.Ok? <==> config.Keys == {"k"} && config["k"].Number?
      ensures r.Ok? ==> r.value.k == config["k"].x
      ensures !(config.Keys <= {"k"}) ==> r == Err(TypeError(UnexpectedKeyword))
      ensures config == map[] ==> r == Err(TypeError(MissingArgument))
      ensures config.Keys == {"k"} && !config["k"].Number? ==> r == Err(FloatArgument(config, "k").error)
    {
      if !(config.Keys <= {"k"}) then Err(TypeError(UnexpectedKeyword))
      else if "k" !in config then Err(TypeError(MissingArgument))
      else
        match FloatArgument(config, "k")
        case Err(e) => Err(e)
        case Ok(k) => Ok(EigenvalueRegularizer(k))
    }
  }

  /**
   * The estimate is a non-negative value, so the square root taken of it is
   * real, or NaN: the Gram matrix is positive semi-definite, and a zero
   * denominator v^T v means v is zero, which makes the numerator zero too.
   */
  lemma EstimateNonNegative(x: Tensor)
    requires |x.shape| == 2
    ensures var e := PowerMethod(Covariance(x), x.shape[1]);
            e.NotANumber? || (e.Value? && 0.0 <= e.x)
  {
    var cols := x.shape[1];
    var c := Covariance(x);
    var v := PowerIterate(c, Ones(cols), PowerIterations);
    GramPositiveSemiDefinite(Rows(x), cols, v);
    DotSelfNonNegative(v);
    var num, den := Dot(MatVec(c, v), v), Dot(v, v);
    if den != 0.0 {
      QuotientNonNegative(num, den);
    } else {
      DotSelfZero(v);
      DotZeroRight(MatVec(c, v), v);
    }
  }

  lemma QuotientNonNegative(num: real, den: real)
    requires 0.0 <= num && 0.0 < den
    ensures 0.0 <= num / den
  {
  }

  function Pow(b: real, k: nat): real
  {
    if k == 0 then 1.0 else b * Pow(b, k - 1)
  }

  lemma {:induction false} PowNonZero(b: real, k: nat)
    requires b != 0.0
    ensures Pow(b, k) != 0.0
  {
    if k > 0 {
      PowNonZero(b, k - 1);
      ProductNonZero(b, Pow(b, k - 1));
    }
  }

  lemma ProductNonZero(a: real, b: real)
    requires a != 0.0 && b != 0.0
    ensures a * b != 0.0
  {
  }

  /** If c 1 == lambda 1, then c^k 1 == lambda^k 1. */
  lemma {:induction false} PowerIterateOnes(c: Matrix, n: nat, lambda: real, k: nat)
    requires |c| == n && IsMatrix(c, n)
    requires MatVec(c, Ones(n)) == ScaleAll(lambda, Ones(n))
    ensures PowerIterate(c, Ones(n), k) == ScaleAll(Pow(lambda, k), Ones(n))
  {
    if k == 0 {
      assert ScaleAll(1.0, Ones(n)) == Ones(n);
    } else {
      var q := Pow(lambda, k - 1);
      PowerIterateOnes(c, n, lambda, k - 1);
      MatVecScaledOnes(c, n, lambda, q);
      calc {
        PowerIterate(c, Ones(n), k);
        MatVec(c, PowerIterate(c, Ones(n), k - 1));
        MatVec(c, ScaleAll(q, Ones(n)));
        ScaleAll(lambda * q, Ones(n));
        { assert Pow(lambda, k) == lambda * q; }
        ScaleAll(Pow(lambda, k), Ones(n));
      }
    }
  }

  lemma {:induction false} MatVecScaledOnes(c: Matrix, n: nat, lambda: real, p: real)
    requires |c| == n && IsMatrix(c, n)
    requires MatVec(c, Ones(n)) == ScaleAll(lambda, Ones(n))
    ensures MatVec(c, ScaleAll(p, Ones(n))) == ScaleAll(lambda * p, Ones(n))
  {
    forall i | 0 <= i < n
      ensures MatVec(c, ScaleAll(p, Ones(n)))[i] == ScaleAll(lambda * p, Ones(n))[i]
    {
      DotScaleRight(c[i], p, Ones(n));
      assert Dot(c[i], Ones(n)) == MatVec(c, Ones(n))[i] == lambda;
    }
  }

  /**
   * When the all-ones start vector is an eigenvector of `c` for a non-zero
   * eigenvalue lambda, the estimate is exactly lambda.
   */
  lemma {:induction false} PowerMethodExactOnEigenvector(c: Matrix, n: nat, lambda: real)
    requires 0 < n && |c| == n && IsMatrix(c, n)
    requires lambda != 0.0
    requires MatVec(c, Ones(n)) == ScaleAll(lambda, Ones(n))
    ensures PowerMethod(c, n) == Value(lambda)
  {
    var v := PowerIterate(c, Ones(n), PowerIterations);
    EigenvectorNumerator(c, n, lambda);
    EigenvectorDenominator(c, n, lambda);
    DivideMultiple(Dot(MatVec(c, v), v), Dot(v, v), lambda);
  }

  /** With v = C^9 1 a multiple of the eigenvector 1, (C v) . v == lambda (v . v). */
  lemma {:induction false} EigenvectorNumerator(c: Matrix, n: nat, lambda: real)
    requires 0 < n && |c| == n && IsMatrix(c, n)
    requires MatVec(c, Ones(n)) == ScaleAll(lambda, Ones(n))
    ensures var v := PowerIterate(c, Ones(n), PowerIterations);
            Dot(MatVec(c, v), v) == lambda * Dot(v, v)
  {
    var p := Pow(lambda, PowerIterations);
    var v := PowerIterate(c, Ones(n), PowerIterations);
    PowerIterateOnes(c, n, lambda, PowerIterations);
    MatVecScaledOnes(c, n, lambda, p);
    ScaleScale(lambda, p, Ones(n));
    assert MatVec(c, v) == ScaleAll(lambda, v);
    DotScaleLeft(lambda, v, v);
  }

  /** With v = C^9 1 and lambda non-zero, v . v is non-zero. */
  lemma {:induction false} EigenvectorDenominator(c: Matrix, n: nat, lambda: real)
    requires 0 < n && |c| == n && IsMatrix(c, n)
    requires lambda != 0.0
    requires MatVec(c, Ones(n)) == ScaleAll(lambda, Ones(n))
    ensures Dot(PowerIterate(c, Ones(n), PowerIterations), PowerIterate(c, Ones(n), PowerIterations)) != 0.0
  {
    var p := Pow(lambda, PowerIterations);
    var v := PowerIterate(c, Ones(n), PowerIterations);
    PowerIterateOnes(c, n, lambda, PowerIterations);
    PowNonZero(lambda, PowerIterations);
    var d1, d2 := Dot(Ones(n), v), Dot(Ones(n), Ones(n));
    DotScaleLeft(p, Ones(n), v);
    DotScaleRight(Ones(n), p, Ones(n));
    DotOnes(n);
    ProductNonZero(p, d2);
    ProductNonZero(p, d1);
  }

  lemma DivideMultiple(num: real, den: real, lambda: real)
    requires den != 0.0 && num == lambda * den
    ensures num / den == lambda
  {
  }

  /**
   * On the 2 x 2 all-ones matrix, whose Gram matrix has eigenvalues 4 and 0,
   * the estimate is the dominant eigenvalue 4.
   */
  lemma AllOnesTwoByTwo()
    ensures var x: Tensor := RawTensor([2, 2], [1.0, 1.0, 1.0, 1.0]);
            PowerMethod(Covariance(x), 2) == Value(4.0)
  {
    AllOnesCovariance();
    var c: Matrix := [[2.0, 2.0], [2.0, 2.0]];
    Dot2(2.0, 2.0, 1.0, 1.0);
    assert Ones(2) == [1.0, 1.0];
    var w := MatVec(c, Ones(2));
    assert w[0] == 4.0 && w[1] == 4.0;
    assert w == ScaleAll(4.0, Ones(2));
    PowerMethodExactOnEigenvector(c, 2, 4.0);
  }

  /** The Gram matrix of the 2 x 2 all-ones tensor has every entry 2. */
  lemma AllOnesCovariance()
    ensures var x: Tensor := RawTensor([2, 2], [1.0, 1.0, 1.0, 1.0]);
            Covariance(x) == [[2.0, 2.0], [2.0, 2.0]]
  {
    var x: Tensor := RawTensor([2, 2], [1.0, 1.0, 1.0, 1.0]);
    var rows := Rows(x);
    assert rows[0] == x.data[0..2] == [1.0, 1.0];
    assert rows[1] == x.data[2..4] == [1.0, 1.0];
    assert rows == [[1.0, 1.0], [1.0, 1.0]];
    assert Column(rows, 2, 0) == [1.0, 1.0] && Column(rows, 2, 1) == [1.0, 1.0];
    var t := Transpose(rows, 2);
    assert t == [[1.0, 1.0], [1.0, 1.0]];
    Dot2(1.0, 1.0, 1.0, 1.0);
    var c := Covariance(x);
    assert c == MatMul(t, rows, 2);
    assert t[0] == Column(rows, 2, 0) && t[1] == Column(rows, 2, 1);
    assert c[0][0] == Dot(t[0], t[0]) && c[0][1] == Dot(t[0], t[1]);
    assert c[1][0] == Dot(t[1], t[0]) && c[1][1] == Dot(t[1], t[1]);
    assert c[0][0] == 2.0 && c[0][1] == 2.0 && c[1][0] == 2.0 && c[1][1] == 2.0;
    assert c[0] == [2.0, 2.0] && c[1] == [2.0, 2.0];
  }

  /** On diag(1, 4), each step keeps the first entry and multiplies the second by 4. */
  lemma {:induction false} DiagonalIterate(c: Matrix, k: nat)
    requires c == [[1.0, 0.0], [0.0, 4.0]]
    ensures PowerIterate(c, [1.0, 1.0], k) == [1.0, Pow(4.0, k)]
  {
    if k > 0 {
      DiagonalIterate(c, k - 1);
      var q := Pow(4.0, k - 1);
      assert [1.0, q][1..] == [q] && [q][1..] == [];
      Dot2(1.0, 0.0, 1.0, q);
      Dot2(0.0, 4.0, 1.0, q);
      assert MatVec(c, [1.0, q]) == [1.0, 4.0 * q];
    }
  }

  /** The Gram matrix of [[1, 0], [0, 2]] is diag(1, 4). */
  lemma DiagonalCovariance()
    ensures var x: Tensor := RawTensor([2, 2], [1.0, 0.0, 0.0, 2.0]);
            Covariance(x) == [[1.0, 0.0], [0.0, 4.0]]
  {
    var x: Tensor := RawTensor([2, 2], [1.0, 0.0, 0.0, 2.0]);
    var rows := Rows(x);
    assert rows[0] == x.data[0..2] == [1.0, 0.0];
    assert rows[1] == x.data[2..4] == [0.0, 2.0];
    assert rows == [[1.0, 0.0], [0.0, 2.0]];
    assert Column(rows, 2, 0) == [1.0, 0.0] && Column(rows, 2, 1) == [0.0, 2.0];
    var t := Transpose(rows, 2);
    assert t == [[1.0, 0.0], [0.0, 2.0]];
    Dot2(1.0, 0.0, 1.0, 0.0);
    Dot2(1.0, 0.0, 0.0, 2.0);
    Dot2(0.0, 2.0, 1.0, 0.0);
    Dot2(0.0, 2.0, 0.0, 2.0);
    var c := Covariance(x);
    assert c == MatMul(t, rows, 2);
    assert t[0] == Column(rows, 2, 0) && t[1] == Column(rows, 2, 1);
    assert c[0][0] == Dot(t[0], t[0]) && c[0][1] == Dot(t[0], t[1]);
    assert c[1][0] == Dot(t[1], t[0]) && c[1][1] == Dot(t[1], t[1]);
    assert c[0][0] == 1.0 && c[0][1] == 0.0 && c[1][0] == 0.0 && c[1][1] == 4.0;
    assert c[0] == [1.0, 0.0] && c[1] == [0.0, 4.0];
  }

  lemma Dot2(a0: real, a1: real, b0: real, b1: real)
    ensures Dot([a0, a1], [b0, b1]) == a0 * b0 + a1 * b1
  {
    assert [a0, a1][1..] == [a1] && [b0, b1][1..] == [b1];
    assert [a1][1..] == [] && [b1][1..] == [];
    assert Dot([a1], [b1]) == a1 * b1 + Dot([], []);
  }

  /** Nine steps on diag(1, 4) from the all-ones vector. */
  lemma {:induction false} DiagonalEstimate(c: Matrix)
    requires c == [[1.0, 0.0], [0.0, 4.0]]
    ensures PowerMethod(c, 2) == Value(274877906945.0 / 68719476737.0)
  {
    assert Ones(2) == [1.0, 1.0];
    DiagonalIterate(c, PowerIterations);
    assert Pow(4.0, 9) == 262144.0;
    var v := PowerIterate(c, Ones(2), PowerIterations);
    assert v == [1.0, 262144.0];
    Dot2(1.0, 0.0, 1.0, 262144.0);
    Dot2(0.0, 4.0, 1.0, 262144.0);
    var w := MatVec(c, v);
    assert w[0] == 1.0 && w[1] == 1048576.0;
    assert w == [1.0, 1048576.0];
    Dot2(1.0, 1048576.0, 1.0, 262144.0);
    Dot2(1.0, 262144.0, 1.0, 262144.0);
  }

  /**
   * For the tensor [[1, 0], [0, 2]], whose Gram matrix is diag(1, 4), the
   * estimate after nine steps is (1 + 4^19) / (1 + 4^18): it approaches the
   * dominant eigenvalue 4 without reaching it, and a different number of
   * steps would give a different value.
   */
  lemma DiagonalTwoByTwo()
    ensures var x: Tensor := RawTensor([2, 2], [1.0, 0.0, 0.0, 2.0]);
            PowerMethod(Covariance(x), 2) == Value(274877906945.0 / 68719476737.0)
  {
    DiagonalCovariance();
    DiagonalEstimate([[1.0, 0.0], [0.0, 4.0]]);
  }

  // ---------------------------------------------------------------------
  // The legacy weight regularizer

  /**
   * An L1/L2 penalty bound, at most once, to the parameter tensor it
   * regularizes; called on a loss, it returns the loss plus the penalty of
   * the parameter in the training phase and the loss unchanged otherwise.
   */
  class WeightRegularizer {
    const l1: real
    const l2: real
    const usesLearningPhase: bool
    var p: Option<Tensor>

    constructor (l1: real := 0.0, l2: real := 0.0)
      ensures this.l1 == l1 && this.l2 == l2 && usesLearningPhase && p == None
    {
      this.l1 := l1;
      this.l2 := l2;
      usesLearningPhase := true;
      p := None;
    }

    /** Binds the parameter; an instance already bound refuses. */
    method SetParam(param: Option<Tensor>) returns (outcome: Outcome)
      modifies this
      ensures old(p).Some? ==> outcome == Fail(Exception(WeightReuseMessage)) && p == old(p)
      ensures old(p).None? ==> outcome == Pass && p == param
    {
      if p.Some? {
        return Fail(Exception(WeightReuseMessage));
      }
      p := param;
      outcome := Pass;
    }

    method Call(loss: real, training: bool) returns (r: Result<real>)
      ensures p.None? ==> r == Err(Exception(SetParamFirstMessage))
      ensures p.Some? && training ==> r == Ok(loss + L1L2Penalty(l1, l2, p.value.data))
      ensures p.Some? && !training ==> r == Ok(loss)
    {
      if p.None? {
        return Err(Exception(SetParamFirstMessage));
      }
      var regularizedLoss := AccumulatePenalty(loss, l1, l2, p.value.data);
      r := Ok(if training then regularizedLoss else loss);
    }

    /** The configuration: the class name beside the two factors. */
    function GetConfig(): (config: Dict)
      reads this
      ensures config.Keys == {"name", "l1", "l2"}
      ensures config["name"] == Text("WeightRegularizer")
      ensures config["l1"] == Number(l1) && config["l2"] == Number(l2)
    {
      map["name" := Text("WeightRegularizer"), "l1" := Number(l1), "l2" := Number(l2)]
    }

    /** `WeightRegularizer(**config)`: a fresh, unbound instance. */
    static method FromConfig(config: Dict) returns (r: Result<WeightRegularizer>)
      ensures r.Ok? <==> L1L2Arguments(config).Ok?
      ensures r.Err? ==> r.error == L1L2Arguments(config).error
      ensures r.Ok? ==> fresh(r.value) && r.value.p == None
      ensures r.Ok? ==> (r.value.l1, r.value.l2) == L1L2Arguments(config).value
    {
      match L1L2Arguments(config)
      case Err(e) =>
        r := Err(e);
      case Ok(args) =>
        var w := new WeightRegularizer(args.0, args.1);
        r := Ok(w);
    }
  }

  /** A legacy configuration cannot be read back: its "name" key is no parameter. */
  lemma WeightConfigNotReloadable(w: WeightRegularizer)
    ensures L1L2Arguments(w.GetConfig()) == Err(TypeError(UnexpectedKeyword))
  {
    assert "name" in w.GetConfig().Keys;
  }

  // ---------------------------------------------------------------------
  // The legacy activity regularizer

  /** A layer, seen through the output tensor at each of its inbound nodes. */
  datatype Layer = Layer(outputs: seq<Tensor>)

  /** The sum of the L1/L2 penalties of every output. */
  function NodesPenalty(l1: real, l2: real, outputs: seq<Tensor>): real
    decreases |outputs|
  {
    if |outputs| == 0 then 0.0
    else NodesPenalty(l1, l2, outputs[..|outputs| - 1]) + L1L2Penalty(l1, l2, outputs[|outputs| - 1].data)
  }

  /** With non-negative factors, the penalty over the nodes is non-negative. */
  lemma {:induction false} NodesPenaltyNonNegative(l1: real, l2: real, outputs: seq<Tensor>)
    requires 0.0 <= l1 && 0.0 <= l2
    ensures 0.0 <= NodesPenalty(l1, l2, outputs)
    decreases |outputs|
  {
    if |outputs| > 0 {
      NodesPenaltyNonNegative(l1, l2, outputs[..|outputs| - 1]);
      L1L2PenaltyNonNegative(l1, l2, outputs[|outputs| - 1].data);
    }
  }

  /**
   * An L1/L2 penalty bound, at most once, to a layer; called on a loss, it
   * returns the loss plus the penalties of the layer's outputs at every
   * inbound node in the training phase, and the loss unchanged otherwise.
   */
  class ActivityRegularizer {
    const l1: real
    const l2: real
    const usesLearningPhase: bool
    var layer: Option<Layer>

    constructor (l1: real := 0.0, l2: real := 0.0)
      ensures this.l1 == l1 && this.l2 == l2 && usesLearningPhase && layer == None
    {
      this.l1 := l1;
      this.l2 := l2;
      usesLearningPhase := true;
      layer := None;
    }

    /** Binds the layer; an instance already bound refuses. */
    method SetLayer(l: Option<Layer>) returns (outcome: Outcome)
      modifies this
      ensures old(layer).Some? ==> outcome == Fail(Exception(ActivityReuseMessage)) && layer == old(layer)
      ensures old(layer).None? ==> outcome == Pass && layer == l
    {
      if layer.Some? {
        return Fail(Exception(ActivityReuseMessage));
      }
      layer := l;
      outcome := Pass;
    }

    method Call(loss: real, training: bool) returns (r: Result<real>)
      ensures layer.None? ==> r == Err(Exception(SetLayerFirstMessage))
      ensures layer.Some? && training ==> r == Ok(loss + NodesPenalty(l1, l2, layer.value.outputs))
      ensures layer.Some? && !training ==> r == Ok(loss)
    {
      if layer.None? {
        return Err(Exception(SetLayerFirstMessage));
      }
      var outputs := layer.value.outputs;
      var regularizedLoss := loss;
      for i := 0 to |outputs|
        invariant regularizedLoss == loss + NodesPenalty(l1, l2, outputs[..i])
      {
        assert outputs[..i + 1][..i] == outputs[..i];
        regularizedLoss := AccumulatePenalty(regularizedLoss, l1, l2, outputs[i].data);
      }
      assert outputs[..|outputs|] == outputs;
      r := Ok(if training then regularizedLoss else loss);
    }

    /** The configuration: the class name beside the two factors. */
    function GetConfig(): (config: Dict)
      reads this
      ensures config.Keys == {"name", "l1", "l2"}
      ensures config["name"] == Text("ActivityRegularizer")
      ensures config["l1"] == Number(l1) && config["l2"] == Number(l2)
    {
      map["name" := Text("ActivityRegularizer"), "l1" := Number(l1), "l2" := Number(l2)]
    }

    /** `ActivityRegularizer(**config)`: a fresh, unbound instance. */
    static method FromConfig(config: Dict) returns (r: Result<ActivityRegularizer>)
      ensures r.Ok? <==> L1L2Arguments(config).Ok?
      ensures r.Err? ==> r.error == L1L2Arguments(config).error
      ensures r.Ok? ==> fresh(r.value) && r.value.layer == None
      ensures r.Ok? ==> (r.value.l1, r.value.l2) == L1L2Arguments(config).value
    {
      match L1L2Arguments(config)
      case Err(e) =>
        r := Err(e);
      case Ok(args) =>
        var a := new ActivityRegularizer(args.0, args.1);
        r := Ok(a);
    }
  }

  /** A legacy configuration cannot be read back: its "name" key is no parameter. */
  lemma ActivityConfigNotReloadable(a: ActivityRegularizer)
    ensures L1L2Arguments(a.GetConfig()) == Err(TypeError(UnexpectedKeyword))
  {
    assert "name" in a.GetConfig().Keys;
  }

  // ---------------------------------------------------------------------
  // Aliases bound at module level (the later definitions of `l1` and `l2`)

  /** `l1`: a weight regularizer with only an L1 factor. */
  method L1(l: real := 0.01) returns (w: WeightRegularizer)
    ensures fresh(w) && w.l1 == l && w.l2 == 0.0 && w.p == None
  {
    w := new WeightRegularizer(l1 := l);
  }

  /** `l2`: a weight regularizer with only an L2 factor. */
  method L2(l: real := 0.01) returns (w: WeightRegularizer)
    ensures fresh(w) && w.l1 == 0.0 && w.l2 == l && w.p == None
  {
    w := new WeightRegularizer(l2 := l);
  }

  /** `l1l2`: a weight regularizer with both factors. */
  method L1L2Legacy(l1: real := 0.01, l2: real := 0.01) returns (w: WeightRegularizer)
    ensures fresh(w) && w.l1 == l1 && w.l2 == l2 && w.p == None
  {
    w := new WeightRegularizer(l1 := l1, l2 := l2);
  }

  /** `activity_l1` */
  method ActivityL1(l: real := 0.01) returns (a: ActivityRegularizer)
    ensures fresh(a) && a.l1 == l && a.l2 == 0.0 && a.layer == None
  {
    a := new ActivityRegularizer(l1 := l);
  }

  /** `activity_l2` */
  method ActivityL2(l: real := 0.01) returns (a: ActivityRegularizer)
    ensures fresh(a) && a.l1 == 0.0 && a.l2 == l && a.layer == None
  {
    a := new ActivityRegularizer(l2 := l);
  }

  /** `activity_l1l2` */
  method ActivityL1L2(l1: real := 0.01, l2: real := 0.01) returns (a: ActivityRegularizer)
    ensures fresh(a) && a.l1 == l1 && a.l2 == l2 && a.layer == None
  {
    a := new ActivityRegularizer(l1 := l1, l2 := l2);
  }
}
