/**
 * Prediction-time assembly: the requested steps, the input checks, the
 * feature vector each step's model receives, the labels of the forecast and
 * the bootstrap table.
 */
module Prediction {
  import opened Common
  import opened LagMatrix
  import opened TrainingTable
  import opened StepFilter
  import opened Sampling
  import opened Estimators

  /** The `steps` argument of `predict`: omitted, an integer `n`, or a list. */
  datatype StepsArg = AllSteps | Count(n: int) | Listed(items: seq<Arg>)

  /**
   * The steps to forecast: omitted means `1..steps`, an integer `n` means
   * `1..n` (nothing when `n < 1`), a list is kept as given once every
   * element is known to be an integer.
   */
  function NormalizeSteps(arg: StepsArg, maxSteps: nat): (r: Result<seq<int>>)
    ensures arg.AllSteps? ==> r.Ok? && |r.value| == maxSteps && forall i :: 0 <= i < maxSteps ==> r.value[i] == i + 1
    ensures arg.Count? ==> r.Ok? && |r.value| == Max(0, arg.n) && forall i :: 0 <= i < |r.value| ==> r.value[i] == i + 1
    ensures arg.Listed? ==> (r.Err? <==> exists i :: 0 <= i < |arg.items| && arg.items[i].NonIntArg?)
    ensures r.Err? ==> r.error == StepsArgumentType
    ensures arg.Listed? && r.Ok? ==>
      |r.value| == |arg.items| && forall i :: 0 <= i < |r.value| ==> r.value[i] == arg.items[i].value
  {
    match arg
    case AllSteps => Ok(seq(maxSteps, i => i + 1))
    case Count(n) => Ok(seq(Max(0, n), i => i + 1))
    case Listed(items) =>
      if exists i :: 0 <= i < |items| && items[i].NonIntArg? then Err(StepsArgumentType)
      else Ok(seq(|items|, i requires 0 <= i < |items| => items[i].value))
  }

  function MaxOf(s: seq<int>): (m: int)
    requires |s| > 0
    ensures forall i :: 0 <= i < |s| ==> s[i] <= m
    ensures exists i :: 0 <= i < |s| && s[i] == m
  {
    if |s| == 1 then s[0]
    else
      var rest := MaxOf(s[1..]);
      assert forall i :: 1 <= i < |s| ==> s[i] == s[1..][i - 1];
      if s[0] >= rest then s[0] else rest
  }

  predicate StepsInRange(steps: seq<int>, maxSteps: nat) {
    |steps| > 0 && forall i :: 0 <= i < |steps| ==> 1 <= steps[i] <= maxSteps
  }

  /**
   * The prediction-input check of the library's utilities, with the
   * contract it is used with: the forecaster must be fitted; the steps
   * non-empty and within `1..max_steps`; exog given exactly when the
   * forecaster was trained with it; the window at least `window_size` long;
   * exog at least `max(steps)` rows long and with the training columns.
   */
  function CheckPredictInput(steps: seq<int>, fitted: bool, includedExog: bool, windowSize: nat,
                             lastWindow: Option<Series>, exog: Option<Exog>, exogColNames: Option<seq<string>>,
                             maxSteps: nat): (r: Outcome)
    ensures r == Pass ==>
      && fitted
      && StepsInRange(steps, maxSteps)
      && exog.Some? == includedExog
      && lastWindow.Some? && |lastWindow.value.values| >= windowSize
      && (exog.Some? ==> |exog.value.rows| >= MaxOf(steps) && exogColNames == Some(exog.value.names))
    ensures !fitted ==> r == Fail(NotFitted)
    ensures fitted && !StepsInRange(steps, maxSteps) ==> r == Fail(InvalidSteps(maxSteps))
  {
    if !fitted then Fail(NotFitted)
    else if !StepsInRange(steps, maxSteps) then Fail(InvalidSteps(maxSteps))
    else if exog.Some? != includedExog then Fail(ExogPresenceMismatch)
    else if lastWindow.None? then Fail(WindowTooShort(windowSize, 0))
    else if |lastWindow.value.values| < windowSize then Fail(WindowTooShort(windowSize, |lastWindow.value.values|))
    else if exog.Some? && |exog.value.rows| < MaxOf(steps) then Fail(ExogTooShort(MaxOf(steps), |exog.value.rows|))
    else if exog.Some? && exogColNames != Some(exog.value.names) then Fail(ExogColumnsMismatch)
    else Pass
  }

  /** The lag predictors read off a window: for each lag `l`, the value `l` positions from its end. */
  function LagVector(w: seq<real>, lags: seq<nat>): (x: seq<real>)
    requires ValidLags(lags) && MaxLag(lags) <= |w|
    ensures |x| == |lags|
  {
    seq(|lags|, j requires 0 <= j < |lags| => w[|w| - lags[j]])
  }

  /** The window `y[i .. i + max_lag)` yields exactly row `i` of the training lag matrix. */
  lemma LagVectorMatchesLagRow(y: seq<real>, lags: seq<nat>, i: nat)
    requires ValidLags(lags) && i + MaxLag(lags) <= |y|
    ensures LagVector(y[i..i + MaxLag(lags)], lags) == LagRow(y, lags, i)
  {
    var M := MaxLag(lags);
    var w := y[i..i + M];
    forall j | 0 <= j < |lags|
      ensures LagVector(w, lags)[j] == LagRow(y, lags, i)[j]
    {
      assert w[M - lags[j]] == y[i + M - lags[j]];
    }
  }

  /**
   * The exogenous predictors of one step at prediction time: the first
   * `horizon` exog rows are expanded into one direct row, and every
   * `horizon`-th value from position `step - 1` is taken.
   */
  function StepExog(rows: seq<seq<real>>, K: nat, horizon: nat, step: nat): (x: seq<real>)
    requires 1 <= step <= horizon && |rows| == horizon
    requires forall i :: 0 <= i < |rows| ==> |rows[i]| == K
  {
    var direct := ExogToDirect(rows, K, horizon)[0];
    var idx := StridedRange(step - 1, K * horizon, horizon);
    assert |direct| == K * horizon by { ExogToDirectWidth(rows, K, horizon); }
    seq(|idx|, j requires 0 <= j < |idx| => direct[idx[j]])
  }

  lemma ExogToDirectWidth(rows: seq<seq<real>>, K: nat, horizon: nat)
    requires horizon >= 1 && |rows| == horizon
    requires forall i :: 0 <= i < |rows| ==> |rows[i]| == K
    ensures |ExogToDirect(rows, K, horizon)| == 1 && |ExogToDirect(rows, K, horizon)[0]| == K * horizon
  {
  }

  /** Whatever the horizon, step `step` receives exactly the covariates of row `step - 1`. */
  lemma StepExogIsRow(rows: seq<seq<real>>, K: nat, horizon: nat, step: nat)
    requires 1 <= step <= horizon && |rows| == horizon
    requires forall i :: 0 <= i < |rows| ==> |rows[i]| == K
    ensures StepExog(rows, K, horizon, step) == rows[step - 1]
  {
    var s: nat := step - 1;
    StridedRangeBlocks(0, s, K, horizon);
    assert 0 + s == step - 1 && 0 + K * horizon == K * horizon;
    var idx := StridedRange(step - 1, K * horizon, horizon);
    var x := StepExog(rows, K, horizon, step);
    assert |x| == K;
    forall k | 0 <= k < K
      ensures x[k] == rows[s][k]
    {
      assert idx[k] == k * horizon + s;
      ExogToDirectAt(rows, K, horizon, 0, k, s);
    }
  }

  /** The feature vector of one step: the lag vector, then the step's covariates when exog is used. */
  function PredictFeatures(w: seq<real>, lags: seq<nat>, exogRows: Option<seq<seq<real>>>, K: nat, horizon: nat, step: nat): seq<real>
    requires ValidLags(lags) && MaxLag(lags) <= |w|
    requires exogRows.Some? ==>
      && 1 <= step <= horizon && |exogRows.value| == horizon
      && forall i :: 0 <= i < horizon ==> |exogRows.value[i]| == K
  {
    if exogRows.None? then LagVector(w, lags) else LagVector(w, lags) + StepExog(exogRows.value, K, horizon, step)
  }

  /** The cells of a prediction-time feature vector with exog. */
  lemma PredictFeaturesCells(w: seq<real>, lags: seq<nat>, rows: seq<seq<real>>, K: nat, horizon: nat, step: nat)
    requires ValidLags(lags) && MaxLag(lags) <= |w|
    requires 1 <= step <= horizon && |rows| == horizon && forall i :: 0 <= i < horizon ==> |rows[i]| == K
    ensures PredictFeatures(w, lags, Some(rows), K, horizon, step) == LagVector(w, lags) + rows[step - 1]
  {
    StepExogIsRow(rows, K, horizon, step);
  }

  /** `row` starts with the values of `lagPart`. */
  predicate LagCells(row: seq<real>, lagPart: seq<real>) {
    |lagPart| <= |row| && forall j :: 0 <= j < |lagPart| ==> row[j] == lagPart[j]
  }

  /** In the direct columns of horizon `s + 1`, `row` holds the values of `target`, one per variable. */
  predicate HorizonCells(row: seq<real>, nLags: nat, steps: nat, s: nat, target: seq<real>) {
    forall k :: 0 <= k < |target| ==>
      ExogColumn(nLags, steps, k, s) < |row| && row[ExogColumn(nLags, steps, k, s)] == target[k]
  }

  /** `row` is the lag part followed by the covariates. */
  predicate FeatureRow(row: seq<real>, lagPart: seq<real>, covariates: seq<real>) {
    row == lagPart + covariates
  }

  /**
   * Filtered row `i` of a table with `K` exogenous variables: the row's
   * `nLags` lag cells, then for each variable the cell of the step's column.
   */
  lemma FilteredRow(steps: nat, nLags: nat, K: nat, X: Frame, Y: Frame, step: int, Xs: Frame, ys: Series,
                    i: nat, lagPart: seq<real>, target: seq<real>)
    requires steps >= 1 && X.WellFormed() && Y.WellFormed() && |Y.columns| == steps
    requires |X.columns| == nLags + K * steps && K >= 1
    requires FilterForStep(steps, nLags, true, X, Y, step) == Ok((Xs, ys))
    requires i < |X.rows| && |lagPart| == nLags && |target| == K && 1 <= step
    ensures LagCells(X.rows[i], lagPart) && HorizonCells(X.rows[i], nLags, steps, step - 1, target) ==>
      FeatureRow(Xs.rows[i], lagPart, target)
  {
    if LagCells(X.rows[i], lagPart) && HorizonCells(X.rows[i], nLags, steps, step - 1, target) {
      FilterKeepsLagColumns(steps, nLags, true, X, Y, step);
      FilterExogColumn(steps, nLags, K, X, Y, step, Xs, ys, 0);
      var row := Xs.rows[i];
      forall k | 0 <= k < K
        ensures row[nLags + k] == target[k]
      {
        FilterExogColumn(steps, nLags, K, X, Y, step, Xs, ys, k);
      }
      RowFromCells(row, lagPart, target);
    }
  }

  /** A row whose cells are those of `lagPart` and then those of `target` is their concatenation. */
  lemma RowFromCells(row: seq<real>, lagPart: seq<real>, target: seq<real>)
    requires |row| == |lagPart| + |target|
    requires forall j :: 0 <= j < |lagPart| ==> row[j] == lagPart[j]
    requires forall k :: 0 <= k < |target| ==> row[|lagPart| + k] == target[k]
    ensures FeatureRow(row, lagPart, target)
  {
    forall j | |lagPart| <= j < |row|
      ensures row[j] == (lagPart + target)[j]
    {
      assert row[|lagPart| + (j - |lagPart|)] == target[j - |lagPart|];
    }
  }

  /**
   * Training and prediction agree: row `i` of the table step `step` is
   * trained on is the lag vector of the window `y[i .. i + max_lag)` followed
   * by the covariates of row `i + max_lag + step - 1` — with
   * `PredictFeaturesCells`, the feature vector that step's model receives
   * when predicting from that window and the exog rows that follow it.
   */
  lemma TrainPredictAgreement(y: Series, e: Exog, lags: seq<nat>, steps: nat, X: Frame, Y: Frame,
                              step: int, Xs: Frame, ys: Series, i: nat)
    requires TableInputs(y, Some(e), lags, steps)
    requires TrainTable(y, Some(e), lags, steps) == Ok((X, Y))
    requires FilterForStep(steps, |lags|, true, X, Y, step) == Ok((Xs, ys))
    requires i < |Xs.rows|
    ensures 1 <= step <= steps && i + MaxLag(lags) + steps <= |y.values| == |e.rows|
    ensures FeatureRow(Xs.rows[i], LagVector(y.values[i..i + MaxLag(lags)], lags), e.rows[i + MaxLag(lags) + step - 1])
  {
    TrainRowCells(y, e, lags, steps, X, Y, i, step);
    FilteredRow(steps, |lags|, |e.names|, X, Y, step, Xs, ys, i,
                LagVector(y.values[i..i + MaxLag(lags)], lags), e.rows[i + MaxLag(lags) + step - 1]);
  }

  /** `PredictorRowLagPart` and `PredictorRowExogPart` on row `i` of an assembled training table, for step `step`. */
  lemma TrainRowCells(y: Series, e: Exog, lags: seq<nat>, steps: nat, X: Frame, Y: Frame, i: nat, step: int)
    requires TableInputs(y, Some(e), lags, steps)
    requires TrainTable(y, Some(e), lags, steps) == Ok((X, Y))
    requires i < |X.rows| && 1 <= step <= steps
    ensures ValidLags(lags) && |e.names| >= 1
    ensures X.WellFormed() && Y.WellFormed() && |Y.columns| == steps && |X.columns| == |lags| + |e.names| * steps
    ensures i + MaxLag(lags) + steps <= |y.values| == |e.rows| && |e.rows[i + MaxLag(lags) + step - 1]| == |e.names|
    ensures LagCells(X.rows[i], LagVector(y.values[i..i + MaxLag(lags)], lags))
    ensures HorizonCells(X.rows[i], |lags|, steps, step - 1, e.rows[i + MaxLag(lags) + step - 1])
  {
    TrainTableOk(y, Some(e), lags, steps, X, Y);
    TrainTableShape(y, Some(e), lags, steps);
    PredictorRowLagPart(y.values, e, lags, steps, X.rows, i);
    PredictorRowExogPart(y.values, e, lags, steps, X.rows, i, step);
  }

  /** Row `i` of the full predictor table starts with the lag vector of the window `y[i .. i + max_lag)`. */
  lemma PredictorRowLagPart(y: seq<real>, e: Exog, lags: seq<nat>, steps: nat, rows: seq<seq<real>>, i: nat)
    requires ValidLags(lags) && steps >= 1 && e.WellFormed()
    requires |y| >= MaxLag(lags) + steps && |e.rows| == |y|
    requires rows == PredictorRows(y, Some(e), lags, steps)
    requires i < |rows|
    ensures i + MaxLag(lags) <= |y|
    ensures LagCells(rows[i], LagVector(y[i..i + MaxLag(lags)], lags))
  {
    PredictorRowSplit(y, Some(e), lags, steps, i);
    PrefixLagCells(rows[i], LagRow(y, lags, i), DirectRow(Some(e), steps, i + MaxLag(lags)));
    LagVectorMatchesLagRow(y, lags, i);
  }

  lemma PrefixLagCells(row: seq<real>, front: seq<real>, rest: seq<real>)
    requires row == front + rest
    ensures LagCells(row, front)
  {
  }

  /** In the columns of horizon `step`, row `i` of the full predictor table holds the covariates of row `i + max_lag + step - 1`. */
  lemma PredictorRowExogPart(y: seq<real>, e: Exog, lags: seq<nat>, steps: nat, rows: seq<seq<real>>, i: nat, step: int)
    requires ValidLags(lags) && steps >= 1 && e.WellFormed()
    requires |y| >= MaxLag(lags) + steps && |e.rows| == |y|
    requires rows == PredictorRows(y, Some(e), lags, steps)
    requires i < |rows| && 1 <= step <= steps
    ensures i + MaxLag(lags) + step - 1 < |y| && |e.rows[i + MaxLag(lags) + step - 1]| == |e.names|
    ensures HorizonCells(rows[i], |lags|, steps, step - 1, e.rows[i + MaxLag(lags) + step - 1])
  {
    PredictorExogCells(y, Some(e), lags, steps, i);
    assert i + MaxLag(lags) + step - 1 == i + MaxLag(lags) + (step - 1);
  }

  /** The forecast's labels: `max(steps)` labels after the window's last, picked at each step. */
  function PredictionLabels(lastLabel: int, steps: seq<int>): (labels: seq<int>)
    ensures |labels| == |steps| && forall i :: 0 <= i < |steps| ==> labels[i] == lastLabel + steps[i]
  {
    seq(|steps|, i requires 0 <= i < |steps| => lastLabel + steps[i])
  }

  /** The exog rows a prediction reads: the first `horizon` rows, when exog is given. */
  function ExogWindow(exog: Option<Exog>, horizon: nat): (r: Option<seq<seq<real>>>)
    requires exog.Some? ==> horizon <= |exog.value.rows|
    ensures r.Some? <==> exog.Some?
    ensures exog.Some? && exog.value.WellFormed() ==>
      |r.value| == horizon && forall t :: 0 <= t < horizon ==> |r.value[t]| == ExogWidth(exog) && r.value[t] == exog.value.rows[t]
  {
    if exog.None? then None else Some(exog.value.rows[..horizon])
  }

  /**
   * The inputs the feature vectors are built from fit together: the window
   * holds at least `max_lag` values, every step lies in `1..horizon`, and
   * there are `horizon` exog rows of `K` values.
   */
  predicate FeatureInputs(w: seq<real>, lags: seq<nat>, exogRows: Option<seq<seq<real>>>, K: nat, horizon: nat,
                          sl: seq<int>) {
    && ValidLags(lags) && MaxLag(lags) <= |w|
    && (forall i :: 0 <= i < |sl| ==> 1 <= sl[i] <= horizon)
    && (exogRows.Some? ==> |exogRows.value| == horizon && forall t :: 0 <= t < horizon ==> |exogRows.value[t]| == K)
  }

  /**
   * The forecasts of the requested steps, in request order: each step's
   * model applied to that step's feature vector. The call fails at the
   * first requested step whose model is unfitted, with that step's error.
   */
  function StepPredictions(regs: seq<Estimator>, learner: Learner, w: seq<real>, lags: seq<nat>,
                           exogRows: Option<seq<seq<real>>>, K: nat, horizon: nat, sl: seq<int>): Result<seq<real>>
    requires FeatureInputs(w, lags, exogRows, K, horizon, sl)
    requires forall i :: 0 <= i < |sl| ==> 1 <= sl[i] <= |regs|
  {
    var k := FirstUnfittedFrom(regs, sl, 0);
    if k < |sl| then Err(EstimatorNotFitted(sl[k]))
    else
      Ok(seq(|sl|, i requires 0 <= i < |sl| =>
        StepForecast(regs[sl[i] - 1], learner, PredictFeatures(w, lags, exogRows, K, horizon, sl[i]))))
  }

  /** What a fitted regressor predicts from feature vector `x`. */
  function StepForecast(e: Estimator, learner: Learner, x: seq<real>): real
    requires e.trainedOn.Some?
  {
    learner(e.params, e.trainedOn.value, x)
  }

  /**
   * The forecasts succeed exactly when every requested step's model is
   * fitted, and then give, in request order, each step's model's prediction
   * from the step's feature vector; otherwise they fail with the error of
   * the first requested step whose model is unfitted.
   */
  lemma StepPredictionsSpec(regs: seq<Estimator>, learner: Learner, w: seq<real>, lags: seq<nat>,
                            exogRows: Option<seq<seq<real>>>, K: nat, horizon: nat, sl: seq<int>)
    requires FeatureInputs(w, lags, exogRows, K, horizon, sl)
    requires forall i :: 0 <= i < |sl| ==> 1 <= sl[i] <= |regs|
    ensures var r := StepPredictions(regs, learner, w, lags, exogRows, K, horizon, sl);
      && (r.Ok? <==> forall i :: 0 <= i < |sl| ==> regs[sl[i] - 1].trainedOn.Some?)
      && (r.Ok? ==> |r.value| == |sl| && forall i :: 0 <= i < |sl| ==>
            r.value[i] == StepForecast(regs[sl[i] - 1], learner, PredictFeatures(w, lags, exogRows, K, horizon, sl[i])))
      && (r.Err? ==> exists i :: FirstUnfitted(regs, sl, i) && r.error == EstimatorNotFitted(sl[i]))
  {
    var k := FirstUnfittedFrom(regs, sl, 0);
    if k < |sl| {
      assert FirstUnfitted(regs, sl, k);
    }
  }

  /** Position `i` holds the first requested step whose model is unfitted. */
  predicate FirstUnfitted(regs: seq<Estimator>, sl: seq<int>, i: int)
    requires forall j :: 0 <= j < |sl| ==> 1 <= sl[j] <= |regs|
  {
    0 <= i < |sl| && regs[sl[i] - 1].trainedOn.None? && forall j :: 0 <= j < i ==> regs[sl[j] - 1].trainedOn.Some?
  }

  /**
   * The position of the first requested step from position `i` on whose
   * model is unfitted, or `|sl|` when all of them are fitted.
   */
  function FirstUnfittedFrom(regs: seq<Estimator>, sl: seq<int>, i: nat): (k: nat)
    requires i <= |sl| && forall j :: 0 <= j < |sl| ==> 1 <= sl[j] <= |regs|
    ensures i <= k <= |sl|
    ensures forall j :: i <= j < k ==> regs[sl[j] - 1].trainedOn.Some?
    ensures k < |sl| ==> regs[sl[k] - 1].trainedOn.None?
    decreases |sl| - i
  {
    if i == |sl| || regs[sl[i] - 1].trainedOn.None? then i else FirstUnfittedFrom(regs, sl, i + 1)
  }

  /**
   * The prediction loop of `predict`: the lag vector is read off the window
   * once, then each requested step's regressor predicts from it and the
   * step's covariates, filling the forecast buffer in request order and
   * stopping at the first unfitted regressor.
   */
  method PredictSteps(regs: seq<Estimator>, learner: Learner, w: seq<real>, lags: seq<nat>,
                      exogRows: Option<seq<seq<real>>>, K: nat, horizon: nat, sl: seq<int>) returns (r: Result<seq<real>>)
    requires FeatureInputs(w, lags, exogRows, K, horizon, sl)
    requires forall i :: 0 <= i < |sl| ==> 1 <= sl[i] <= |regs|
    ensures r == StepPredictions(regs, learner, w, lags, exogRows, K, horizon, sl)
  {
    var xLags := LagVector(w, lags);
    var predictions := new real[|sl|];
    var i := 0;
    while i < |sl|
      invariant 0 <= i <= |sl|
      invariant forall j :: 0 <= j < i ==>
        && regs[sl[j] - 1].trainedOn.Some?
        && predictions[j] == StepForecast(regs[sl[j] - 1], learner, PredictFeatures(w, lags, exogRows, K, horizon, sl[j]))
    {
      var step := sl[i];
      var x := if exogRows.None? then xLags else xLags + StepExog(exogRows.value, K, horizon, step);
      var p := PredictRow(regs[step - 1], learner, x, step);
      if p.Err? {
        PredictionsFailAt(regs, learner, w, lags, exogRows, K, horizon, sl, i);
        return Err(p.error);
      }
      assert p.value == StepForecast(regs[step - 1], learner, PredictFeatures(w, lags, exogRows, K, horizon, step));
      predictions[i] := p.value;
      i := i + 1;
    }
    PredictionsAllFitted(regs, learner, w, lags, exogRows, K, horizon, sl, predictions[..]);
    r := Ok(predictions[..]);
  }

  /** When every step before position `i` is fitted and the step at `i` is not, the forecasts fail at `i`. */
  lemma PredictionsFailAt(regs: seq<Estimator>, learner: Learner, w: seq<real>, lags: seq<nat>,
                          exogRows: Option<seq<seq<real>>>, K: nat, horizon: nat, sl: seq<int>, i: nat)
    requires FeatureInputs(w, lags, exogRows, K, horizon, sl)
    requires forall j :: 0 <= j < |sl| ==> 1 <= sl[j] <= |regs|
    requires FirstUnfitted(regs, sl, i)
    ensures StepPredictions(regs, learner, w, lags, exogRows, K, horizon, sl) == Err(EstimatorNotFitted(sl[i]))
  {
    FirstUnfittedAt(regs, sl, i);
  }

  /** When every step is fitted, the forecasts are the values each step's model predicts. */
  lemma PredictionsAllFitted(regs: seq<Estimator>, learner: Learner, w: seq<real>, lags: seq<nat>,
                             exogRows: Option<seq<seq<real>>>, K: nat, horizon: nat, sl: seq<int>, values: seq<real>)
    requires FeatureInputs(w, lags, exogRows, K, horizon, sl)
    requires forall j :: 0 <= j < |sl| ==> 1 <= sl[j] <= |regs|
    requires |values| == |sl|
    requires forall j :: 0 <= j < |sl| ==>
      && regs[sl[j] - 1].trainedOn.Some?
      && values[j] == StepForecast(regs[sl[j] - 1], learner, PredictFeatures(w, lags, exogRows, K, horizon, sl[j]))
    ensures StepPredictions(regs, learner, w, lags, exogRows, K, horizon, sl) == Ok(values)
  {
    FirstUnfittedAt(regs, sl, |sl|);
    var r := StepPredictions(regs, learner, w, lags, exogRows, K, horizon, sl);
    assert r.Ok? && |r.value| == |values|;
    assert forall j :: 0 <= j < |sl| ==> r.value[j] == values[j];
    assert r.value == values;
  }

  /** The first unfitted position is the one before which every step is fitted and at which the step is not. */
  lemma FirstUnfittedAt(regs: seq<Estimator>, sl: seq<int>, i: nat)
    requires i <= |sl| && forall j :: 0 <= j < |sl| ==> 1 <= sl[j] <= |regs|
    requires forall j :: 0 <= j < i ==> regs[sl[j] - 1].trainedOn.Some?
    requires i < |sl| ==> regs[sl[i] - 1].trainedOn.None?
    ensures FirstUnfittedFrom(regs, sl, 0) == i
  {

  }

  /**
   * `rng.choice(pool, n_boot, replace=True)` as the `call`-th choice of a
   * generator seeded with `seed`: `n_boot` residuals of the pool, drawn by
   * position with replacement.
   */
  function Resample(rand: Randomness, seed: int, call: nat, pool: seq<real>, nBoot: nat): (s: seq<real>)
    requires nBoot > 0 ==> |pool| > 0
    ensures |s| == nBoot
    ensures forall b :: 0 <= b < nBoot ==> s[b] in pool
  {
    if |pool| == 0 then []
    else
      var draws := rand.draw(seed, call, |pool|, nBoot);
      seq(nBoot, b requires 0 <= b < nBoot => pool[draws[b]])
  }

  /** The window `predict` reads: the one given, or else the one stored by `fit`. */
  function Window(storedWindow: Option<Series>, lastWindowArg: Option<Series>): Option<Series> {
    if lastWindowArg.Some? then lastWindowArg else storedWindow
  }

  /**
   * `predict` as a value, on the forecaster's fitted state: the steps are
   * normalised, the inputs checked, and each requested step's regressor
   * predicts from the window's lag vector followed by that step's
   * covariates; the forecast is labelled with the positions after the
   * window's last label. `regs` holds step `s`'s regressor at position
   * `s - 1`, and `storedWindow` is the window kept by `fit`.
   */
  function Forecast(regs: seq<Estimator>, learner: Learner, lags: seq<nat>, fitted: bool, includedExog: bool,
                    storedWindow: Option<Series>, exogColNames: Option<seq<string>>,
                    stepsArg: StepsArg, lastWindowArg: Option<Series>, exog: Option<Exog>): (r: Result<Series>)
    requires |regs| >= 1 && ValidLags(lags)
    requires storedWindow.Some? ==> storedWindow.value.WellFormed()
    requires lastWindowArg.Some? ==> lastWindowArg.value.WellFormed()
    requires exog.Some? ==> exog.value.WellFormed()
    ensures r.Ok? ==>
      && NormalizeSteps(stepsArg, |regs|).Ok? && StepsInRange(NormalizeSteps(stepsArg, |regs|).value, |regs|)
      && |r.value.values| == |NormalizeSteps(stepsArg, |regs|).value|
  {
    var norm := NormalizeSteps(stepsArg, |regs|);
    if norm.Err? then Err(norm.error)
    else
      var sl := norm.value;
      var window := Window(storedWindow, lastWindowArg);
      var check := CheckPredictInput(sl, fitted, includedExog, MaxLag(lags), window, exog, exogColNames, |regs|);
      if check.Fail? then Err(check.error)
      else ForecastFrom(regs, learner, lags, sl, window.value, exog)
  }

  /**
   * The forecast once the inputs passed the checks: the steps' predictions
   * from the window `w`, labelled after its last label.
   */
  function ForecastFrom(regs: seq<Estimator>, learner: Learner, lags: seq<nat>, sl: seq<int>, w: Series,
                        exog: Option<Exog>): (r: Result<Series>)
    requires ValidLags(lags) && StepsInRange(sl, |regs|) && w.WellFormed() && |w.values| >= MaxLag(lags)
    requires exog.Some? ==> exog.value.WellFormed() && |exog.value.rows| >= MaxOf(sl)
    ensures r.Ok? ==> |r.value.values| == |sl|
  {
    var horizon := MaxOf(sl);
    var preds := StepPredictions(regs, learner, w.values, lags, ExogWindow(exog, horizon), ExogWidth(exog), horizon, sl);
    if preds.Err? then Err(preds.error)
    else Ok(Series(PredictionLabels(w.index[|w.index| - 1], sl), preds.value))
  }

  /**
   * `predict` on the forecaster's fitted state: normalise the steps, check
   * the inputs against the window `fit` stored or the one given, run the
   * prediction loop up to the furthest requested step and label the values.
   */
  method PredictWith(regs: seq<Estimator>, learner: Learner, lags: seq<nat>, fitted: bool, includedExog: bool,
                     storedWindow: Option<Series>, exogColNames: Option<seq<string>>,
                     stepsArg: StepsArg, lastWindowArg: Option<Series>, exog: Option<Exog>) returns (r: Result<Series>)
    requires |regs| >= 1 && ValidLags(lags)
    requires storedWindow.Some? ==> storedWindow.value.WellFormed()
    requires lastWindowArg.Some? ==> lastWindowArg.value.WellFormed()
    requires exog.Some? ==> exog.value.WellFormed()
    ensures r == Forecast(regs, learner, lags, fitted, includedExog, storedWindow, exogColNames, stepsArg, lastWindowArg, exog)
  {
    var norm := NormalizeSteps(stepsArg, |regs|);
    if norm.Err? {
      return Err(norm.error);
    }
    var sl := norm.value;
    var window := Window(storedWindow, lastWindowArg);
    var check := CheckPredictInput(sl, fitted, includedExog, MaxLag(lags), window, exog, exogColNames, |regs|);
    if check.Fail? {
      return Err(check.error);
    }
    r := PredictFrom(regs, learner, lags, sl, window.value, exog);
  }

  /** The prediction loop up to the furthest requested step, then the labels. */
  method PredictFrom(regs: seq<Estimator>, learner: Learner, lags: seq<nat>, sl: seq<int>, w: Series,
                     exog: Option<Exog>) returns (r: Result<Series>)
    requires ValidLags(lags) && StepsInRange(sl, |regs|) && w.WellFormed() && |w.values| >= MaxLag(lags)
    requires exog.Some? ==> exog.value.WellFormed() && |exog.value.rows| >= MaxOf(sl)
    ensures r == ForecastFrom(regs, learner, lags, sl, w, exog)
  {
    var horizon := MaxOf(sl);
    var preds := PredictSteps(regs, learner, w.values, lags, ExogWindow(exog, horizon), ExogWidth(exog), horizon, sl);
    if preds.Err? {
      return Err(preds.error);
    }
    r := Ok(Series(PredictionLabels(w.index[|w.index| - 1], sl), preds.value));
  }

  /** The argument errors of `predict`, in the order they are checked: the steps' type, then the input check. */
  lemma ForecastRejects(regs: seq<Estimator>, learner: Learner, lags: seq<nat>, fitted: bool, includedExog: bool,
                         storedWindow: Option<Series>, exogColNames: Option<seq<string>>,
                         stepsArg: StepsArg, lastWindowArg: Option<Series>, exog: Option<Exog>)
    requires |regs| >= 1 && ValidLags(lags)
    requires storedWindow.Some? ==> storedWindow.value.WellFormed()
    requires lastWindowArg.Some? ==> lastWindowArg.value.WellFormed()
    requires exog.Some? ==> exog.value.WellFormed()
    ensures NormalizeSteps(stepsArg, |regs|).Err? ==> Forecast(regs, learner, lags, fitted, includedExog, storedWindow, exogColNames, stepsArg, lastWindowArg, exog) == Err(StepsArgumentType)
    ensures NormalizeSteps(stepsArg, |regs|).Ok? ==>
      var check := CheckPredictInput(NormalizeSteps(stepsArg, |regs|).value, fitted, includedExog, MaxLag(lags),
                                     Window(storedWindow, lastWindowArg), exog, exogColNames, |regs|);
      check.Fail? ==> Forecast(regs, learner, lags, fitted, includedExog, storedWindow, exogColNames, stepsArg, lastWindowArg, exog) == Err(check.error)
  {
  }

  /**
   * A successful forecast: the inputs passed every check, and there is one
   * value per requested step, labelled after the window's last label, each
   * the prediction of that step's own fitted regressor from the step's
   * feature vector.
   */
  lemma ForecastValues(regs: seq<Estimator>, learner: Learner, lags: seq<nat>, fitted: bool, includedExog: bool,
                         storedWindow: Option<Series>, exogColNames: Option<seq<string>>,
                         stepsArg: StepsArg, lastWindowArg: Option<Series>, exog: Option<Exog>)
    requires |regs| >= 1 && ValidLags(lags)
    requires storedWindow.Some? ==> storedWindow.value.WellFormed()
    requires lastWindowArg.Some? ==> lastWindowArg.value.WellFormed()
    requires exog.Some? ==> exog.value.WellFormed()
    requires Forecast(regs, learner, lags, fitted, includedExog, storedWindow, exogColNames, stepsArg, lastWindowArg, exog).Ok?
    ensures NormalizeSteps(stepsArg, |regs|).Ok? && fitted
    ensures var sl := NormalizeSteps(stepsArg, |regs|).value;
      var window := Window(storedWindow, lastWindowArg);
      var r := Forecast(regs, learner, lags, fitted, includedExog, storedWindow, exogColNames, stepsArg, lastWindowArg, exog).value;
      && StepsInRange(sl, |regs|) && (exog.Some? ==> MaxOf(sl) <= |exog.value.rows|)
      && window.Some? && |window.value.values| >= MaxLag(lags)
      && |r.values| == |sl|
      && r.index == PredictionLabels(window.value.index[|window.value.index| - 1], sl)
      && forall i :: 0 <= i < |sl| ==>
        && regs[sl[i] - 1].trainedOn.Some?
        && r.values[i] == StepForecast(regs[sl[i] - 1], learner,
             PredictFeatures(window.value.values, lags, ExogWindow(exog, MaxOf(sl)), ExogWidth(exog), MaxOf(sl), sl[i]))
  {
  }

  /**
   * Every error `predict` raises: a rejected argument or, once all checks
   * pass, the error of the first requested step whose regressor is unfitted.
   */
  lemma ForecastFailures(regs: seq<Estimator>, learner: Learner, lags: seq<nat>, fitted: bool, includedExog: bool,
                         storedWindow: Option<Series>, exogColNames: Option<seq<string>>,
                         stepsArg: StepsArg, lastWindowArg: Option<Series>, exog: Option<Exog>)
    requires |regs| >= 1 && ValidLags(lags)
    requires storedWindow.Some? ==> storedWindow.value.WellFormed()
    requires lastWindowArg.Some? ==> lastWindowArg.value.WellFormed()
    requires exog.Some? ==> exog.value.WellFormed()
    requires Forecast(regs, learner, lags, fitted, includedExog, storedWindow, exogColNames, stepsArg, lastWindowArg, exog).Err?
    ensures var e := Forecast(regs, learner, lags, fitted, includedExog, storedWindow, exogColNames, stepsArg, lastWindowArg, exog).error;
      || e in {StepsArgumentType, NotFitted, ExogPresenceMismatch, ExogColumnsMismatch, InvalidSteps(|regs|)}
      || e.WindowTooShort? || e.ExogTooShort? || e.EstimatorNotFitted?
    ensures Forecast(regs, learner, lags, fitted, includedExog, storedWindow, exogColNames, stepsArg, lastWindowArg, exog).error.EstimatorNotFitted? ==>
      && NormalizeSteps(stepsArg, |regs|).Ok?
      && var sl := NormalizeSteps(stepsArg, |regs|).value;
      && StepsInRange(sl, |regs|)
      && exists i :: FirstUnfitted(regs, sl, i) && Forecast(regs, learner, lags, fitted, includedExog, storedWindow, exogColNames, stepsArg, lastWindowArg, exog).error == EstimatorNotFitted(sl[i])
  {
    var norm := NormalizeSteps(stepsArg, |regs|);
    if norm.Ok? {
      var sl := norm.value;
      var window := Window(storedWindow, lastWindowArg);
      if CheckPredictInput(sl, fitted, includedExog, MaxLag(lags), window, exog, exogColNames, |regs|).Pass? {
        var horizon := MaxOf(sl);
        StepPredictionsSpec(regs, learner, window.value.values, lags, ExogWindow(exog, horizon), ExogWidth(exog), horizon, sl);
      }
    }
  }
}
