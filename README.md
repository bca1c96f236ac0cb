# Scratch linear regression, modelled in Dafny

This project models `ScratchLinearRegression` from
`Package-predict-web/model.py`. It is a one-variable ordinary-least-squares
estimator. Its two fields, slope `m` and intercept `b`, stay unset (`None`)
until `fit` succeeds. `predict`, `get_parameters` and `calculate_r_squared`
only read them.

- `statistics.dfy` (module `Statistics`) holds the numpy array arithmetic
  the estimator uses, over exact reals: `np.sum`, `np.mean`, an array minus
  a scalar, an array minus an array, `np.sum(a ** 2)` and `np.sum(a * b)`.
  It also holds the algebra of those sums: deviations from the mean cancel,
  a sum of squares vanishes only on zeros, and closed forms for sums over
  shifted, scaled and affine arrays.
- `model.dfy` (module `LinearRegression`) holds the rest:
  - `FitLine`: the line `fit` computes, as a function of the two samples.
  - `LeastSquaresLine`: the step from the centred sums to the line, which
    fails when the denominator is zero.
  - `RSquared` and `Determination`: the score `calculate_r_squared`
    computes.
  - The class `ScratchLinearRegression`, whose `Fit` method updates the
    fields in place. The other operations are functions that read the
    fields.

Each `ValueError` the source raises is a value of `Error`. `fit` returns an
`Outcome` (`Pass` or `Fail(error)`). `predict` and `calculate_r_squared`
return a `Result`. The dictionary `get_parameters` returns is a pair
(slope, intercept).

Beyond the source's own promises, the model proves three facts about
least squares:
- The fitted line is the unique minimiser of the squared error on its
  training data.
- The fitted line passes through the point of means.
- The score of a fitted line on its own training data lies in [0, 1].

## Model

| member | source | states |
|---|---|---|
| LinearRegression.ScratchLinearRegression.constructor | Package-predict-web/model.py:18-19 | a fresh estimator has neither slope nor intercept set |
| LinearRegression.ScratchLinearRegression.Fit | Package-predict-web/model.py:21-50 | fails with the zero-variance error exactly when the least-squares line does not exist, and then leaves `m` and `b` unchanged; otherwise stores exactly the slope and intercept of `FitLine`; keeps "both set or neither" |
| LinearRegression.FitLine | Package-predict-web/model.py:37-50 | no contract of its own; the line `fit` computes: `LeastSquaresLine` applied to the centred sums and means of the two samples; characterised by FitFailsIffConstant, FitPassesThroughMeans, FitRecoversAffine and FitMinimisesSquaredError |
| LinearRegression.Evaluate | Package-predict-web/model.py:71 | no contract of its own; `m * x + b` for one scalar; characterised through EvaluateAll and Predict |
| LinearRegression.SquaredError | Package-predict-web/model.py:105 | no contract of its own; `np.sum((y - (m * X + b)) ** 2)` for a line; characterised by SquaredErrorAboutMeans and FitMinimisesSquaredError |
| LinearRegression.RSquared | Package-predict-web/model.py:102-112 | no contract of its own; `Determination` of the residual and total sums of squares; characterised by RSquaredBounds, FittedRSquaredInUnitInterval and RSquaredAfterFitOnAffine |
| LinearRegression.ScratchLinearRegression.Coefficients | Package-predict-web/model.py:65 | no contract of its own; the stored line when both `m` and `b` are set, none otherwise; characterised through Predict, PredictAll and Fit |
| Statistics.Sum | Package-predict-web/model.py:41-42 | no contract of its own; `np.sum`, 0 for an empty sample; characterised by DeviationsFromMeanCancel and MeanOfConstant |
| Statistics.Mean | Package-predict-web/model.py:37-38 | no contract of its own; `np.mean`, the sum over the count (0 for an empty sample); characterised by MeanOfConstant, MeanOfAffine and DeviationsFromMeanCancel |
| Statistics.Shift | Package-predict-web/model.py:41-42 | `X - X_mean`: same length, each element minus the scalar |
| Statistics.Subtract | Package-predict-web/model.py:105 | `y - y_pred`: same length, element-wise differences |
| Statistics.SumOfProducts | Package-predict-web/model.py:41 | no contract of its own; `np.sum(a * b)`; characterised by SumOfProductsScaled and SquaredErrorAboutMeans |
| LinearRegression.LeastSquaresLine | Package-predict-web/model.py:41-50 | the line from the centred sums fails exactly when the denominator `Σ(x - x̄)²` is zero, and the error is the zero-variance one |
| LinearRegression.LeastSquaresLineSolves | Package-predict-web/model.py:41-50 | when the denominator is non-zero there is a line; its slope solves the normal equation `slope · Sxx = Sxy`, and it passes through the centre (x̄, ȳ) |
| LinearRegression.FitPassesThroughMeans | Package-predict-web/model.py:37-50 | a fitted line evaluated at the mean of X gives the mean of y |
| LinearRegression.FitFailsIffConstant | Package-predict-web/model.py:41-47 | `fit` fails exactly when all X are equal, the empty sample included |
| LinearRegression.FitRecoversAffine | Package-predict-web/model.py:37-50 | data on a line `y = a·x + c` with X not constant is fitted by exactly slope `a` and intercept `c` |
| LinearRegression.FitMinimisesSquaredError | Package-predict-web/model.py:41-50 | no line has a smaller squared error on the training data than the fitted one, and only the fitted line has the same error (the meaning of "ordinary least squares") |
| LinearRegression.CrossDeviationsOfAffine | Package-predict-web/model.py:37-41 | for data on a line `y = a·x + c`, the mean of y is the image of the mean of X, and the numerator is `a` times the denominator |
| LinearRegression.SquaredDeviationsOfAffine | Package-predict-web/model.py:106 | for data on a line `y = a·x + c`, `ss_total` is `a²` times the squared deviations of X |
| LinearRegression.SquaredErrorAboutMeans | Package-predict-web/model.py:105 | the residual sum of squares of any line equals `Syy - 2p·Sxy + p²·Sxx + n·d²`, where p is the line's slope and d is how far it passes above (x̄, ȳ) |
| LinearRegression.ResidualsAboutCentres | Package-predict-web/model.py:105 | the residuals `y - (m·X + b)` of any line, rewritten as deviations from chosen centres |
| LinearRegression.LeastSquaresGap | Package-predict-web/model.py:49-50 | when `Sxy = m·Sxx`, another slope p and displacement d cost exactly `Sxx·(p - m)² + n·d²` more |
| LinearRegression.EvaluateAll | Package-predict-web/model.py:71 | `m * X + b` on an array has the array's length, and each element is the scalar prediction of the matching input |
| LinearRegression.ScratchLinearRegression.Predict | Package-predict-web/model.py:65-71 | fails with the not-trained error exactly when `m` or `b` is unset; otherwise returns `m·x + b`; reads the state and changes nothing |
| LinearRegression.ScratchLinearRegression.PredictAll | Package-predict-web/model.py:65-71 | fails exactly when the scalar `predict` does; otherwise returns one value per input, each equal to the scalar prediction, in order |
| LinearRegression.ScratchLinearRegression.GetParameters | Package-predict-web/model.py:80-83 | returns the stored slope and intercept (None/None while untrained); for a valid estimator, the slope is present exactly when `predict` succeeds |
| LinearRegression.Determination | Package-predict-web/model.py:109-112 | the score is 0 when `ss_total` is 0; it is at most 1; otherwise it is 1 exactly when `ss_residual` is 0; and it is not negative when the residual does not exceed the total |
| LinearRegression.RSquaredBounds | Package-predict-web/model.py:102-112 | the score of any predictions is at most 1 and is 0 when y does not vary; otherwise it is 1 exactly when the predictions reproduce y |
| LinearRegression.ScratchLinearRegression.CalculateRSquared | Package-predict-web/model.py:97-112 | fails exactly when `predict` fails, with the not-trained error; otherwise the score is at most 1, is 0 when y does not vary, and otherwise is 1 exactly when the predictions equal y |
| LinearRegression.RSquaredAfterFitOnAffine | Package-predict-web/model.py:21-112 | after fitting data on a line `y = a·x + c`, the score on that data is 1, or 0 when `a = 0` because y is then constant |
| LinearRegression.FittedRSquaredInUnitInterval | Package-predict-web/model.py:21-112 | a fitted line scores between 0 and 1 on its own training data |
| LinearRegression.FlatLineResiduals | Package-predict-web/model.py:105-106 | the residuals of the flat line through ȳ are exactly the deviations that make up `ss_total` |
| LinearRegression.PredictionsOfAffine | Package-predict-web/model.py:71 | the line `y = a·x + c` predicts data on it exactly |
| LinearRegression.ConstantFeatureExample | Package-predict-web/model.py:45-47 | `X = [5, 5, 5]` cannot be fitted, whatever y is |
| LinearRegression.DoublingExample | Package-predict-web/model.py:21-112 | `X = [1..5]`, `Y = 2X` fits slope 2 and intercept 0 and scores 1 |
| LinearRegression.ConstantTargetExample | Package-predict-web/model.py:109-110 | a constant y scores exactly 0 under any line |
| Statistics.ZeroVarianceIffAllEqual | Package-predict-web/model.py:42-45 | the denominator `np.sum((X - X_mean) ** 2)` is zero exactly when every X is equal |
| Statistics.DeviationsFromMeanCancel | Package-predict-web/model.py:37-42 | deviations of a sample from its own mean sum to zero |
| Statistics.SquaredErrorZero | Package-predict-web/model.py:105 | `np.sum((y - y_pred) ** 2)` is zero exactly when the predictions equal y |
| Statistics.SumOfSquaresZero | Package-predict-web/model.py:42 | a sum of squares is zero exactly when every element is zero |
| Statistics.SumOfSquares | Package-predict-web/model.py:42 | a sum of squares is never negative |
| Statistics.MeanOfConstant | Package-predict-web/model.py:37-38 | a non-empty sample whose every element is c has mean c |
| Statistics.MeanOfAffine | Package-predict-web/model.py:37-38 | the mean of `a·x + c` is `a·mean(x) + c` |
| Statistics.SumOfProductsScaled | Package-predict-web/model.py:41 | `np.sum(u * (a·u))` is `a · np.sum(u ** 2)` |
| Statistics.SumOfSquaresScaled | Package-predict-web/model.py:106 | `np.sum((a·u) ** 2)` is `a² · np.sum(u ** 2)` |
| Statistics.SumOfSquaresAboutCentres | Package-predict-web/model.py:105 | the sum of squares of `(v - p·u) - c`, with v and u both summing to zero, in terms of the sums of squares and products of v and u |

## Left out

- Floating point: the model computes over exact reals. IEEE rounding, NaN
  and infinity are not modelled. `fit` tests the denominator against 0, and
  `calculate_r_squared` tests `ss_total` against 0. With floats, a sample
  with nearly constant X can give a tiny non-zero denominator, or one that
  rounds to zero. The model only knows the exact case.
- LinearRegression.FitFailsIffConstant: holds over exact reals only. With
  floats even an exactly constant X can pass the zero test: for
  X = [0.1, 0.1, 0.1] the float mean is 0.10000000000000002, the squared
  deviations sum to about 5.8e-34, not 0, so `fit` stores a slope and
  intercept computed from rounding noise instead of failing.
- LinearRegression.RSquaredBounds: the "0 when y does not vary" clause holds
  over exact reals only; for y = [0.1, 0.1, 0.1] the float `ss_total` is not
  0, so `calculate_r_squared` does not take its zero branch. The same holds
  for that clause of LinearRegression.ScratchLinearRegression.CalculateRSquared.
- Statistics.Mean: the mean of an empty sample is 0 here, where numpy gives
  NaN with a warning. The value is never observable. On an empty sample
  `fit` fails because the denominator is 0, and `calculate_r_squared`
  returns 0.0 because `ss_total` is 0.
- LinearRegression.ScratchLinearRegression.Fit: requires X and y to have
  one length. numpy broadcasting, which accepts a one-element y, or fails
  with a shape error, is not modelled.
- LinearRegression.ScratchLinearRegression.CalculateRSquared: requires X
  and y to have one length, for the same reason as Fit.
- Input conversion (`np.array(..., dtype=float)`) is not modelled. Inputs
  are already sequences of reals. Strings, nested lists and other values
  that numpy would convert or reject are not covered.
- LinearRegression.ScratchLinearRegression.Predict and
  LinearRegression.ScratchLinearRegression.PredictAll: `predict` accepts a
  scalar or an array in one Python function. Here these are two functions
  for those two shapes. Multi-dimensional arrays are not modelled.
- LinearRegression.ScratchLinearRegression.GetParameters: the dictionary
  with keys `slope_coefficient` and `intercept_term` is modelled as a pair
  (slope, intercept).
- Exceptions are modelled as returned values (`Outcome`, `Result`); their
  message texts are not modelled.
- `Package-predict-web/streamlit_app.py` (the web front end) and
  `qr-code/qr-code.py` are not part of this model. They are user interface
  and an unrelated tool.
