/**
 `ScratchLinearRegression`: a one-variable ordinary-least-squares estimator.
 It holds a slope `m` and an intercept `b`, both unset until `fit` succeeds;
 `predict`, `get_parameters` and `calculate_r_squared` only read them.
 Numbers are exact reals, not IEEE floats.
 */
module LinearRegression {
  import opened Statistics

  datatype Option<T> = None | Some(value: T)

  /** The two `ValueError`s the estimator raises. */
  datatype Error =
    | ZeroVarianceInX  // fit: the independent variable does not vary
    | NotTrained       // predict: no fit has succeeded yet

  datatype Result<T> = Ok(value: T) | Err(error: Error)

  datatype Outcome = Pass | Fail(error: Error)

  /** The line `y = slope * x + intercept`. */
  datatype Line = Line(slope: real, intercept: real)

  /** `m * x + b` for a scalar x. */
  function Evaluate(l: Line, x: real): real
  {
    l.slope * x + l.intercept
  }

  /** `m * X + b` for a sample X, element by element. */
  function EvaluateAll(l: Line, xs: seq<real>): (ys: seq<real>)
    ensures |ys| == |xs|
    ensures forall i :: 0 <= i < |xs| ==> ys[i] == Evaluate(l, xs[i])
  {
    seq(|xs|, i requires 0 <= i < |xs| => Evaluate(l, xs[i]))
  }

  /**
   The line `fit` computes from the sums about the means mx and my: slope
   `sxy / sxx` and intercept `my - slope * mx`, or the zero-variance error
   when the denominator sxx is 0.
   */
  function LeastSquaresLine(sxy: real, sxx: real, mx: real, my: real): (r: Result<Line>)
    ensures r.Err? <==> sxx == 0.0
    ensures r.Err? ==> r.error == ZeroVarianceInX
  {
    if sxx == 0.0 then Err(ZeroVarianceInX) else Ok(Line(sxy / sxx, my - sxy / sxx * mx))
  }

  /**
   The least-squares line solves the normal equation `slope * sxx = sxy` and
   passes through the centre point (mx, my).
   */
  lemma LeastSquaresLineSolves(sxy: real, sxx: real, mx: real, my: real)
    requires sxx != 0.0
    ensures LeastSquaresLine(sxy, sxx, mx, my).Ok?
    ensures LeastSquaresLine(sxy, sxx, mx, my).value.slope * sxx == sxy
    ensures Evaluate(LeastSquaresLine(sxy, sxx, mx, my).value, mx) == my
  {
  }

  /**
   What `fit` computes: slope `Σ(x - x̄)(y - ȳ) / Σ(x - x̄)²` and intercept
   `ȳ - slope * x̄`, or the zero-variance error when the denominator is 0.
   */
  function FitLine(xs: seq<real>, ys: seq<real>): Result<Line>
    requires |xs| == |ys|
  {
    var xMean, yMean := Mean(xs), Mean(ys);
    LeastSquaresLine(SumOfProducts(Shift(xs, xMean), Shift(ys, yMean)), SumOfSquares(Shift(xs, xMean)), xMean, yMean)
  }

  /** A fitted line passes through the point of means (x̄, ȳ). */
  lemma FitPassesThroughMeans(xs: seq<real>, ys: seq<real>)
    requires |xs| == |ys|
    requires FitLine(xs, ys).Ok?
    ensures Evaluate(FitLine(xs, ys).value, Mean(xs)) == Mean(ys)
  {
    var mx, my := Mean(xs), Mean(ys);
    LeastSquaresLineSolves(SumOfProducts(Shift(xs, mx), Shift(ys, my)), SumOfSquares(Shift(xs, mx)), mx, my);
  }

  /** `np.sum((y - (m * X + b)) ** 2)`: the squared error of the line l on the sample. */
  function SquaredError(l: Line, xs: seq<real>, ys: seq<real>): real
    requires |xs| == |ys|
  {
    SumOfSquares(Subtract(ys, EvaluateAll(l, xs)))
  }

  /**
   The score `1 - ssResidual / ssTotal` from the two sums of squares; exactly 0
   when ssTotal is 0. It is at most 1, is 1 only for a zero residual, and is
   not negative when the residual does not exceed the total.
   */
  function Determination(ssResidual: real, ssTotal: real): (r: real)
    requires 0.0 <= ssResidual && 0.0 <= ssTotal
    ensures ssTotal == 0.0 ==> r == 0.0
    ensures r <= 1.0
    ensures ssTotal != 0.0 ==> (r == 1.0 <==> ssResidual == 0.0)
    ensures ssResidual <= ssTotal ==> 0.0 <= r
  {
    if ssTotal == 0.0 then 0.0
    else
      assert ssResidual / ssTotal * ssTotal == ssResidual;
      1.0 - ssResidual / ssTotal
  }

  /**
   The coefficient of determination of predictions for the observed values ys:
   residual sum of squares against the squared deviations of ys from their mean.
   */
  function RSquared(ys: seq<real>, predicted: seq<real>): real
    requires |ys| == |predicted|
  {
    Determination(SumOfSquares(Subtract(ys, predicted)), SumOfSquares(Shift(ys, Mean(ys))))
  }

  /** fit fails exactly when all X are equal, which includes an empty sample. */
  lemma FitFailsIffConstant(xs: seq<real>, ys: seq<real>)
    requires |xs| == |ys|
    ensures FitLine(xs, ys).Err? <==> AllEqual(xs)
  {
    ZeroVarianceIffAllEqual(xs);
  }

  /**
   For data on a line `y = a * x + c`: the mean of y is the image of the mean
   of X, and the cross deviations are a times the squared deviations of X.
   */
  lemma CrossDeviationsOfAffine(xs: seq<real>, ys: seq<real>, a: real, c: real)
    requires |xs| == |ys| > 0
    requires forall i :: 0 <= i < |xs| ==> ys[i] == a * xs[i] + c
    ensures Mean(ys) == a * Mean(xs) + c
    ensures SumOfProducts(Shift(xs, Mean(xs)), Shift(ys, Mean(ys))) == a * SumOfSquares(Shift(xs, Mean(xs)))
  {
    MeanOfAffine(xs, ys, a, c);
    ShiftOfAffine(xs, ys, a, c, Mean(xs), Mean(ys));
    SumOfProductsScaled(Shift(xs, Mean(xs)), a);
  }

  /** For data on a line `y = a * x + c`, the squared deviations of y are a² times those of X. */
  lemma SquaredDeviationsOfAffine(xs: seq<real>, ys: seq<real>, a: real, c: real)
    requires |xs| == |ys| > 0
    requires forall i :: 0 <= i < |xs| ==> ys[i] == a * xs[i] + c
    ensures SumOfSquares(Shift(ys, Mean(ys))) == Square(a) * SumOfSquares(Shift(xs, Mean(xs)))
  {
    MeanOfAffine(xs, ys, a, c);
    ShiftOfAffine(xs, ys, a, c, Mean(xs), Mean(ys));
    SumOfSquaresScaled(Shift(xs, Mean(xs)), a);
  }

  /** When the sums are those of the line `y = a * x + c`, the least-squares line is that line. */
  lemma LeastSquaresOfAffine(sxy: real, sxx: real, mx: real, my: real, a: real, c: real)
    requires sxx != 0.0 && sxy == a * sxx && my == a * mx + c
    ensures LeastSquaresLine(sxy, sxx, mx, my) == Ok(Line(a, c))
  {
    var r := LeastSquaresLine(sxy, sxx, mx, my);
    assert r.Ok?;
    assert r.value.slope == sxy / sxx == a;
    assert r.value.intercept == my - sxy / sxx * mx == c;
    assert r.value == Line(a, c);
  }

  /** LeastSquaresOfAffine, for the sums `fit` computes from the two samples. */
  lemma FitOfAffineSums(xs: seq<real>, ys: seq<real>, a: real, c: real)
    requires |xs| == |ys|
    requires SumOfSquares(Shift(xs, Mean(xs))) != 0.0
    requires SumOfProducts(Shift(xs, Mean(xs)), Shift(ys, Mean(ys))) == a * SumOfSquares(Shift(xs, Mean(xs)))
    requires Mean(ys) == a * Mean(xs) + c
    ensures FitLine(xs, ys) == Ok(Line(a, c))
  {
    LeastSquaresOfAffine(SumOfProducts(Shift(xs, Mean(xs)), Shift(ys, Mean(ys))), SumOfSquares(Shift(xs, Mean(xs))),
                         Mean(xs), Mean(ys), a, c);
  }

  /** Data on a line `y = a * x + c`, with X not constant, is fitted by exactly that line. */
  lemma FitRecoversAffine(xs: seq<real>, ys: seq<real>, a: real, c: real)
    requires |xs| == |ys|
    requires forall i :: 0 <= i < |xs| ==> ys[i] == a * xs[i] + c
    requires !AllEqual(xs)
    ensures FitLine(xs, ys) == Ok(Line(a, c))
  {
    ZeroVarianceIffAllEqual(xs);
    assert |xs| > 0;
    CrossDeviationsOfAffine(xs, ys, a, c);
    FitOfAffineSums(xs, ys, a, c);
  }

  /**
   The score is at most 1, exactly 0 when ys do not vary, and otherwise 1
   exactly when the predictions reproduce ys.
   */
  lemma RSquaredBounds(ys: seq<real>, predicted: seq<real>)
    requires |ys| == |predicted|
    ensures RSquared(ys, predicted) <= 1.0
    ensures SumOfSquares(Shift(ys, Mean(ys))) == 0.0 ==> RSquared(ys, predicted) == 0.0
    ensures SumOfSquares(Shift(ys, Mean(ys))) != 0.0 ==> (RSquared(ys, predicted) == 1.0 <==> predicted == ys)
  {
    SquaredErrorZero(ys, predicted);
  }

  /** The line `y = a * x + c` predicts data on it exactly. */
  lemma PredictionsOfAffine(xs: seq<real>, ys: seq<real>, a: real, c: real)
    requires |xs| == |ys|
    requires forall i :: 0 <= i < |xs| ==> ys[i] == a * xs[i] + c
    ensures EvaluateAll(Line(a, c), xs) == ys
  {
    var predicted := EvaluateAll(Line(a, c), xs);
    forall i | 0 <= i < |xs| ensures predicted[i] == ys[i] {
    }
  }

  /**
   After fitting data on a line `y = a * x + c` (X not constant), the score on
   that data is 1, or 0 when the line is flat (a = 0, so y does not vary).
   */
  lemma RSquaredAfterFitOnAffine(xs: seq<real>, ys: seq<real>, a: real, c: real)
    requires |xs| == |ys|
    requires forall i :: 0 <= i < |xs| ==> ys[i] == a * xs[i] + c
    requires !AllEqual(xs)
    ensures FitLine(xs, ys).Ok?
    ensures RSquared(ys, EvaluateAll(FitLine(xs, ys).value, xs)) == if a == 0.0 then 0.0 else 1.0
  {
    FitRecoversAffine(xs, ys, a, c);
    PredictionsOfAffine(xs, ys, a, c);
    ZeroVarianceIffAllEqual(xs);
    SquaredDeviationsOfAffine(xs, ys, a, c);
    SquareSign(a);
    var ssTotal, sxx := SumOfSquares(Shift(ys, Mean(ys))), SumOfSquares(Shift(xs, Mean(xs)));
    if a != 0.0 && ssTotal == 0.0 {
      ProductZero(Square(a), sxx);
    }
    RSquaredBounds(ys, ys);
  }

  /** How far the line l passes above the point (cx, cy). */
  function Displacement(l: Line, cx: real, cy: real): real
  {
    Evaluate(l, cx) - cy
  }

  /** One residual of l, rewritten about the centres cx and cy. */
  lemma ResidualAboutCentres(l: Line, x: real, y: real, cx: real, cy: real)
    ensures y - Evaluate(l, x) == ((y - cy) - l.slope * (x - cx)) - Displacement(l, cx, cy)
  {
    Distribute(l.slope, x, -cx);
  }

  /** The residuals `y - (m * X + b)` of l, as deviations from the centres cx and cy. */
  lemma ResidualsAboutCentres(l: Line, xs: seq<real>, ys: seq<real>, cx: real, cy: real)
    requires |xs| == |ys|
    ensures Subtract(ys, EvaluateAll(l, xs))
            == Shift(ScaledDifference(Shift(ys, cy), Shift(xs, cx), l.slope), Displacement(l, cx, cy))
  {
    var r, e := Subtract(ys, EvaluateAll(l, xs)),
                Shift(ScaledDifference(Shift(ys, cy), Shift(xs, cx), l.slope), Displacement(l, cx, cy));
    forall i | 0 <= i < |xs| ensures r[i] == e[i] {
      ResidualAboutCentres(l, xs[i], ys[i], cx, cy);
    }
  }

  /**
   The squared error of any line l, through the sums about the means: with
   syy = Σ(y - ȳ)², sxy = Σ(x - x̄)(y - ȳ) and sxx = Σ(x - x̄)², it is
   `syy - 2 m sxy + m² sxx + n d²`, d being how far l passes above (x̄, ȳ).
   */
  lemma SquaredErrorAboutMeans(l: Line, xs: seq<real>, ys: seq<real>)
    requires |xs| == |ys|
    ensures SquaredError(l, xs, ys)
            == CentredSquares(SumOfSquares(Shift(ys, Mean(ys))), SumOfProducts(Shift(xs, Mean(xs)), Shift(ys, Mean(ys))),
                              SumOfSquares(Shift(xs, Mean(xs))), |xs|, l.slope, Displacement(l, Mean(xs), Mean(ys)))
  {
    ResidualsAboutCentres(l, xs, ys, Mean(xs), Mean(ys));
    DeviationsFromMeanCancel(xs);
    DeviationsFromMeanCancel(ys);
    SumOfSquaresAboutCentres(Shift(ys, Mean(ys)), Shift(xs, Mean(xs)), l.slope, Displacement(l, Mean(xs), Mean(ys)));
  }

  /**
   The algebra of least squares: when `sxy = m sxx`, the squared error of a
   line with slope p and displacement d exceeds that of slope m through the
   centre by `sxx (p - m)² + n d²`.
   */
  lemma LeastSquaresGap(syy: real, sxy: real, sxx: real, n: nat, m: real, p: real, d: real)
    requires sxy == m * sxx
    ensures CentredSquares(syy, sxy, sxx, n, p, d) - CentredSquares(syy, sxy, sxx, n, m, 0.0)
            == sxx * Square(p - m) + (n as real) * Square(d)
  {
    ZeroTimes(n as real);
    assert p * sxy == p * m * sxx;
    assert m * sxy == m * m * sxx;
    assert Square(p - m) * sxx == Square(p) * sxx - 2.0 * (p * m * sxx) + m * m * sxx;
  }

  /**
   When one error exceeds another by `sxx (p - m)² + n d²` with sxx and n
   positive, it is never smaller, and equal only for p = m and d = 0.
   */
  lemma GapOrdering(fitError: real, otherError: real, sxx: real, n: nat, m: real, p: real, d: real)
    requires sxx > 0.0 && n > 0
    requires otherError - fitError == sxx * Square(p - m) + (n as real) * Square(d)
    ensures fitError <= otherError
    ensures fitError == otherError <==> p == m && d == 0.0
  {
    SquareSign(p - m);
    SquareSign(d);
    var nr := n as real;
    assert sxx * Square(p - m) >= 0.0;
    assert nr * Square(d) >= 0.0;
    if otherError == fitError {
      ProductZero(sxx, Square(p - m));
      ProductZero(nr, Square(d));
    }
  }

  /**
   LeastSquaresGap and GapOrdering together: the line with slope m through the
   centre has the least squared error, and no other line has the same.
   */
  lemma LeastSquaresMinimum(fitError: real, otherError: real, syy: real, sxy: real, sxx: real, n: nat,
                            m: real, p: real, dFit: real, d: real)
    requires sxy == m * sxx && sxx >= 0.0 && sxx != 0.0 && n > 0 && dFit == 0.0
    requires fitError == CentredSquares(syy, sxy, sxx, n, m, dFit)
    requires otherError == CentredSquares(syy, sxy, sxx, n, p, d)
    ensures fitError <= otherError
    ensures fitError == otherError <==> p == m && d == 0.0
  {
    LeastSquaresGap(syy, sxy, sxx, n, m, p, d);
    GapOrdering(fitError, otherError, sxx, n, m, p, d);
  }

  /**
   For a line l through (cx, cy), another line is l exactly when it has the
   same slope and also passes through (cx, cy).
   */
  lemma SameLineIff(l: Line, other: Line, cx: real, cy: real)
    requires Evaluate(l, cx) == cy
    ensures other == l <==> other.slope == l.slope && Displacement(other, cx, cy) == 0.0
  {
  }

  /**
   Least squares: no line has a smaller squared error on the training data than
   the fitted one, and only the fitted line itself has the same error.
   */
  lemma FitMinimisesSquaredError(xs: seq<real>, ys: seq<real>, other: Line)
    requires |xs| == |ys|
    requires FitLine(xs, ys).Ok?
    ensures SquaredError(FitLine(xs, ys).value, xs, ys) <= SquaredError(other, xs, ys)
    ensures SquaredError(FitLine(xs, ys).value, xs, ys) == SquaredError(other, xs, ys)
            <==> other == FitLine(xs, ys).value
  {
    var fit := FitLine(xs, ys).value;
    var mx, my := Mean(xs), Mean(ys);
    var syy, sxy, sxx := SumOfSquares(Shift(ys, my)), SumOfProducts(Shift(xs, mx), Shift(ys, my)), SumOfSquares(Shift(xs, mx));
    assert |xs| > 0;
    LeastSquaresLineSolves(sxy, sxx, mx, my);
    SquaredErrorAboutMeans(fit, xs, ys);
    SquaredErrorAboutMeans(other, xs, ys);
    LeastSquaresMinimum(SquaredError(fit, xs, ys), SquaredError(other, xs, ys), syy, sxy, sxx, |xs|,
                        fit.slope, other.slope, Displacement(fit, mx, my), Displacement(other, mx, my));
    SameLineIff(fit, other, mx, my);
  }

  /** The flat line through the mean of ys leaves exactly the deviations of ys. */
  lemma FlatLineResiduals(xs: seq<real>, ys: seq<real>)
    requires |xs| == |ys|
    ensures Subtract(ys, EvaluateAll(Line(0.0, Mean(ys)), xs)) == Shift(ys, Mean(ys))
  {
    var r, e := Subtract(ys, EvaluateAll(Line(0.0, Mean(ys)), xs)), Shift(ys, Mean(ys));
    forall i | 0 <= i < |xs| ensures r[i] == e[i] {
      ZeroTimes(xs[i]);
    }
  }

  /** On its own training data a fitted line scores between 0 and 1. */
  lemma FittedRSquaredInUnitInterval(xs: seq<real>, ys: seq<real>)
    requires |xs| == |ys|
    requires FitLine(xs, ys).Ok?
    ensures 0.0 <= RSquared(ys, EvaluateAll(FitLine(xs, ys).value, xs)) <= 1.0
  {
    FitMinimisesSquaredError(xs, ys, Line(0.0, Mean(ys)));
    FlatLineResiduals(xs, ys);
  }

  /** The estimator object: the fields `m` and `b` of model.py. */
  class ScratchLinearRegression {
    var m: Option<real>
    var b: Option<real>

    /** Slope and intercept are set together or not at all. */
    predicate Valid()
      reads this
    {
      m.Some? <==> b.Some?
    }

    /** `__init__`: a fresh estimator is untrained. */
    constructor ()
      ensures m == None && b == None
      ensures Valid()
    {
      m := None;
      b := None;
    }

    /** The stored line, when both coefficients are set. */
    function Coefficients(): Option<Line>
      reads this
    {
      if m.Some? && b.Some? then Some(Line(m.value, b.value)) else None
    }

    /**
     `fit`: computes the coefficients and checks the denominator before
     touching either field, so a failed fit leaves the old state in place.
     */
    method Fit(xs: seq<real>, ys: seq<real>) returns (outcome: Outcome)
      requires |xs| == |ys|
      modifies this
      ensures outcome.Fail? <==> FitLine(xs, ys).Err?
      ensures outcome.Fail? ==> outcome.error == ZeroVarianceInX && m == old(m) && b == old(b)
      ensures outcome.Pass? ==> Valid() && Coefficients() == Some(FitLine(xs, ys).value)
      ensures old(Valid()) ==> Valid()
    {
      var xMean, yMean := Mean(xs), Mean(ys);
      var numerator := SumOfProducts(Shift(xs, xMean), Shift(ys, yMean));
      var denominator := SumOfSquares(Shift(xs, xMean));
      if denominator == 0.0 {
        return Fail(ZeroVarianceInX);
      }
      var line := LeastSquaresLine(numerator, denominator, xMean, yMean).value;
      m, b := Some(line.slope), Some(line.intercept);
      outcome := Pass;
    }

    /** `predict` on a scalar: `m * x + b`, or NotTrained while a coefficient is unset. */
    function Predict(x: real): (r: Result<real>)
      reads this
      ensures r.Err? <==> m.None? || b.None?
      ensures r.Err? ==> r.error == NotTrained
      ensures r.Ok? ==> r.value == m.value * x + b.value
    {
      match Coefficients()
      case None => Err(NotTrained)
      case Some(l) => Ok(Evaluate(l, x))
    }

    /** `predict` on a sample: the scalar prediction of every element, in order. */
    function PredictAll(xs: seq<real>): (r: Result<seq<real>>)
      reads this
      ensures r.Err? <==> m.None? || b.None?
      ensures r.Err? ==> r.error == NotTrained
      ensures r.Ok? ==> |r.value| == |xs| && forall i :: 0 <= i < |xs| ==> Predict(xs[i]) == Ok(r.value[i])
    {
      match Coefficients()
      case None => Err(NotTrained)
      case Some(l) => Ok(EvaluateAll(l, xs))
    }

    /** `get_parameters`: the slope and intercept as stored, absent while untrained. */
    function GetParameters(): (p: (Option<real>, Option<real>))
      reads this
      ensures p.0 == m && p.1 == b
      ensures Valid() ==> (p.0.Some? <==> Predict(0.0).Ok?)
    {
      (m, b)
    }

    /**
     `calculate_r_squared`: the score of the stored line's predictions for xs
     against ys; fails exactly when `predict` does.
     */
    function CalculateRSquared(xs: seq<real>, ys: seq<real>): (r: Result<real>)
      reads this
      requires |xs| == |ys|
      ensures r.Err? <==> PredictAll(xs).Err?
      ensures r.Err? ==> r.error == NotTrained
      ensures r.Ok? ==> r.value <= 1.0
      ensures r.Ok? && SumOfSquares(Shift(ys, Mean(ys))) == 0.0 ==> r.value == 0.0
      ensures r.Ok? && SumOfSquares(Shift(ys, Mean(ys))) != 0.0 ==> (r.value == 1.0 <==> PredictAll(xs).value == ys)
    {
      match PredictAll(xs)
      case Err(e) => Err(e)
      case Ok(predicted) =>
        RSquaredBounds(ys, predicted);
        Ok(RSquared(ys, predicted))
    }
  }

  /** Zero variance in X: `X = [5, 5, 5]` cannot be fitted, whatever y is. */
  lemma ConstantFeatureExample(ys: seq<real>)
    requires |ys| == 3
    ensures FitLine([5.0, 5.0, 5.0], ys) == Err(ZeroVarianceInX)
  {
    FitFailsIffConstant([5.0, 5.0, 5.0], ys);
  }

  /** `X = [1, 2, 3, 4, 5]`, `Y = 2X`: slope 2, intercept 0, and a score of 1. */
  lemma DoublingExample()
    ensures FitLine([1.0, 2.0, 3.0, 4.0, 5.0], [2.0, 4.0, 6.0, 8.0, 10.0]) == Ok(Line(2.0, 0.0))
    ensures RSquared([2.0, 4.0, 6.0, 8.0, 10.0], EvaluateAll(Line(2.0, 0.0), [1.0, 2.0, 3.0, 4.0, 5.0])) == 1.0
  {
    var xs, ys := [1.0, 2.0, 3.0, 4.0, 5.0], [2.0, 4.0, 6.0, 8.0, 10.0];
    assert xs[0] != xs[1];
    FitRecoversAffine(xs, ys, 2.0, 0.0);
    RSquaredAfterFitOnAffine(xs, ys, 2.0, 0.0);
  }

  /** Zero variance in y: `Y = [7, 7, 7]` scores exactly 0 under any trained line. */
  lemma ConstantTargetExample(l: Line)
    ensures RSquared([7.0, 7.0, 7.0], EvaluateAll(l, [1.0, 2.0, 3.0])) == 0.0
  {
    ZeroVarianceIffAllEqual([7.0, 7.0, 7.0]);
  }

  /** Train on `X = Y = [1, 2, 3]`, then predict 10 for 10. */
  method IdentityScenario()
  {
    var model := new ScratchLinearRegression();
    assert model.GetParameters() == (None, None);
    assert model.Predict(10.0) == Err(NotTrained);
    var xs := [1.0, 2.0, 3.0];
    assert xs[0] != xs[1];
    FitRecoversAffine(xs, xs, 1.0, 0.0);
    var outcome := model.Fit(xs, xs);
    assert outcome == Pass;
    assert model.GetParameters() == (Some(1.0), Some(0.0));
    assert model.Predict(10.0) == Ok(10.0);
    var again := model.Fit([5.0, 5.0, 5.0], xs);
    FitFailsIffConstant([5.0, 5.0, 5.0], xs);
    assert again == Fail(ZeroVarianceInX);
    assert model.GetParameters() == (Some(1.0), Some(0.0));
  }
}
